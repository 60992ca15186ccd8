/** A whole transfer of one file, whatever is in it: the theorems about runs are about something. */
module EndToEndWitness {
  import opened Transfers
  import opened EndToEnd
  import opened EndToEndSafety
  import opened EndToEndNames
  import RN = ReceiveNames
  import RP = ReceiveProbe
  import EP = EndToEndProbe
  import S = Send
  import R = Receive
  import RI = ReceiveInvariant
  import RR = ReceiveRows
  import Naming
  import NamingExhausted
  import Bytes

  /** The file as it was picked, where it goes, and the row it becomes there. */
  datatype Errand = Errand(picked: S.Source, address: Text, directory: Text, row: FileEntry)

  /** A file as large as it is said to be, and a receiver that does not insist on a digest. */
  ghost predicate Fits(g: Setting, x: Errand) {
    && x.picked.readable && x.picked.size == |g.source(x.picked.path)|
    && x.row.id == Id(x) && x.row.size == x.picked.size && x.row.token == 2 && x.row.status.FileWaiting?
    && g.env.accepts(g.source(x.picked.path), x.row.sha256)
  }

  /** The row is what the receiver makes of the offer. */
  ghost predicate AsOffered(x: Errand) {
    R.EntriesOf(Request(x).files) == [x.row.(token := 0)]
  }

  function Id(x: Errand): Text {
    S.IdOf(0, x.picked.salt)
  }

  function Row(x: Errand): FileEntry {
    FileEntry(Id(x), x.picked.fileName, x.picked.size, [], 0, x.picked.path, 0, FileWaiting)
  }

  function Offer(x: Errand): S.Offer {
    S.Offer(Id(x), x.picked.fileName, x.picked.size)
  }

  function Request(x: Errand): R.Prepare {
    R.Prepare(true, true, true, true, Described([Offer(x)]), true, false, true, Bytes.Some(x.directory))
  }

  function Tokens(x: Errand): map<Text, Token> {
    map[Id(x) := 2]
  }

  function Head(x: Errand): R.UploadRequest {
    R.UploadRequest(1, Id(x), 2, x.picked.size)
  }

  /** Some run from nothing leads here. */
  ghost predicate Reachable(g: Setting, w: World) {
    exists events :: RunAll(g, Start(map[]), events) == w
  }

  lemma {:induction false} OneMore(g: Setting, w: World, events: seq<Event>, e: Event)
    ensures RunAll(g, w, events + [e]) == Take(g, RunAll(g, w, events), e)
    decreases |events|
  {
    if events == [] {
      assert [e][1..] == [];
      assert events + [e] == [e];
      assert RunAll(g, w, [e]) == RunAll(g, Take(g, w, e), []);
    } else {
      assert (events + [e])[1..] == events[1..] + [e];
      OneMore(g, Take(g, w, events[0]), events[1..], e);
    }
  }

  lemma ReachNext(g: Setting, w: World, e: Event)
    requires Reachable(g, w)
    ensures Reachable(g, Take(g, w, e))
  {
    var events :| RunAll(g, Start(map[]), events) == w;
    OneMore(g, Start(map[]), events, e);
  }

  // --- the handshake -------------------------------------------------------------------------

  ghost predicate Asked(x: Errand, w: World) {
    && w.sender == S.Ask(S.IDLE, [Row(x)])
    && w.mail == map[0 := S.Request.Prepare([Offer(x)])]
    && w.receiver == RI.INITIAL && w.wire == map[] && w.grants == map[] && w.kept == map[]
  }

  lemma EntriesOne(x: Errand)
    requires x.picked.readable
    ensures S.EntriesOf([x.picked], 1) == [Row(x)] && S.OffersOf([Row(x)]) == [Offer(x)]
  {
    assert S.EntriesOf([x.picked], 0) == [];
  }

  lemma SendsOne(x: Errand, sources: seq<S.Source>)
    requires x.picked.readable && sources == [x.picked]
    ensures S.SendFiles(S.IDLE, true, false, sources) == S.Ask(S.IDLE, [Row(x)])
  {
    EntriesOne(x);
  }

  lemma AsksOne(x: Errand, t: S.Sender)
    requires t == S.Ask(S.IDLE, [Row(x)]) && x.picked.readable
    ensures t.flight == map[0 := S.Request.Prepare([Offer(x)])] && t.issued == 1 && t.session == 0
  {
    EntriesOne(x);
  }

  /** One request goes out, and nothing else happens. */
  lemma FirstOut(w: World, e: S.Event, t: S.Sender, request: S.Request)
    requires S.Enabled(w.sender, e) && t == S.Next(w.sender, e) && !e.PrepareAnswered?
    requires w.sender.issued < t.issued && w.sender.issued in t.flight && t.flight[w.sender.issued] == request
    ensures ToSender(w, e) == w.(sender := t, mail := w.mail[w.sender.issued := request])
  {
  }

  lemma AsksThis(x: Errand, e: S.Event, w: World, t: S.Sender)
    requires x.picked.readable && w == Start(map[]) && S.Enabled(w.sender, e) && !e.PrepareAnswered?
    requires t == S.Next(w.sender, e) && t == S.Ask(S.IDLE, [Row(x)])
    ensures Asked(x, ToSender(w, e))
  {
    AsksOne(x, t);
    FirstOut(w, e, t, S.Request.Prepare([Offer(x)]));
  }

  lemma Asks(g: Setting, x: Errand, e: S.Event, w: World)
    requires Fits(g, x) && e == S.UserSends(true, false, [x.picked]) && w == Start(map[])
    ensures Asked(x, Take(g, w, AtSender(e)))
  {
    SendsOne(x, e.sources);
    AsksThis(x, e, w, S.SendFiles(w.sender, true, false, e.sources));
    Possible(g, w, e);
  }

  lemma Possible(g: Setting, w: World, e: S.Event)
    requires e.UserSends? && forall k :: 0 <= k < |e.sources| ==> e.sources[k].size == |g.source(e.sources[k].path)|
    ensures Take(g, w, AtSender(e)) == ToSender(w, e)
  {
  }

  function Fresh(address: Text): R.Conn {
    R.Conn(address, true, false, false, false, Bytes.None, 0, [])
  }

  ghost predicate Arrived(x: Errand, w: World) {
    && w.sender == S.Ask(S.IDLE, [Row(x)])
    && w.mail == map[0 := S.Request.Prepare([Offer(x)])]
    && w.receiver == RI.INITIAL.(conns := map[0 := Fresh(x.address)])
    && w.wire == map[0 := 0] && w.grants == map[] && w.kept == map[]
  }

  lemma Arrives(g: Setting, x: Errand, w: World)
    requires Asked(x, w)
    ensures Arrived(x, Take(g, w, Reaches(0, 0, x.address)))
  {
  }

  function Taken(x: Errand): R.Conn {
    R.Conn(x.address, true, true, true, true, Bytes.None, 0, [200])
  }

  ghost predicate Open(x: Errand, r: R.Service) {
    && r.session == 1 && r.address == x.address && r.directory == x.directory && r.pending.None?
    && r.tokens == Tokens(x) && r.issued == 2 && r.uploads == map[]
    && r.files == [x.row] && r.disk == map[]
  }

  ghost predicate Accepted(x: Errand, w: World) {
    && w.sender == S.Ask(S.IDLE, [Row(x)])
    && w.mail == map[0 := S.Request.Prepare([Offer(x)])]
    && Open(x, w.receiver) && w.receiver.conns == map[0 := Taken(x)]
    && w.wire == map[0 := 0] && w.grants == map[1 := Opening(0, Tokens(x))] && w.kept == map[] && w.shown == 1
  }

  lemma TokensOne(files: seq<FileEntry>)
    requires |files| == 1
    ensures R.TokenTable(files) == map[files[0].id := files[0].token]
  {
    assert R.TokenTable(files[..0]) == map[];
  }

  lemma AcceptsOne(s: R.Service, p: ConnId, c: R.Conn, f: FileEntry, directory: Text)
    requires s.pending == Bytes.Some(p) && s.conns == map[p := c] && !c.answered && s.files == [f] && s.disk == map[]
    ensures var t := R.Accept(s, Bytes.Some(directory), {});
            && t.session == s.issued + 1 && t.address == c.address && t.directory == directory && t.pending.None?
            && t.files == [f.(token := s.issued + 2)] && t.tokens == map[f.id := s.issued + 2] && t.issued == s.issued + 2
            && t.uploads == s.uploads && t.disk == map[]
            && t.conns == map[p := c.(answered := true, statuses := c.statuses + [200])]
  {
    var files := R.WithTokens(s.files, s.issued + 2);
    assert files == [f.(token := s.issued + 2)];
    TokensOne(files);
  }

  /** Nothing is parked and nothing has been received. */
  ghost predicate Quiet(r: R.Service) {
    r.pending.None? && r.session == 0 && r.uploads == map[] && r.disk == map[] && r.issued == 0
  }

  lemma ParksThenAccepts(s: R.Service, c: ConnId, p: R.Prepare)
    requires c in s.conns && R.Verdict(s, p) == 0 && p.quickSave
    ensures R.PrepareUpload(s, c, p, {})
            == R.Accept(s.(conns := s.conns[c := s.conns[c].(headSeen := true, complete := true)],
                           files := R.EntriesOf(p.files), state := State.Pending, pending := Bytes.Some(c)), p.folder, {})
  {
  }

  lemma ParksOne(x: Errand, s: R.Service, p: R.Prepare)
    requires Quiet(s) && s.conns == map[0 := Fresh(x.address)] && R.Verdict(s, p) == 0 && p.quickSave
    requires p.folder == Bytes.Some(x.directory) && R.EntriesOf(p.files) == [x.row.(token := 0)]
    requires x.row.id == Id(x) && x.row.token == 2
    ensures var t := R.PrepareUpload(s, 0, p, {}); Open(x, t) && t.conns == map[0 := Taken(x)]
  {
    var seen := Fresh(x.address).(headSeen := true, complete := true);
    assert s.conns[0 := s.conns[0].(headSeen := true, complete := true)] == map[0 := seen];
    assert seen.statuses + [200] == [200];
    ParksThenAccepts(s, 0, p);
    AcceptsOne(s.(conns := map[0 := seen], files := R.EntriesOf(p.files), state := State.Pending, pending := Bytes.Some(0)),
               0, seen, x.row.(token := 0), x.directory);
  }

  lemma Accepts(g: Setting, x: Errand, w: World, e: R.Event)
    requires Fits(g, x) && AsOffered(x) && Arrived(x, w) && e == R.PrepareRequest(0, Request(x))
    ensures Accepted(x, Take(g, w, AtReceiver(e, {})))
  {
    assert R.Verdict(w.receiver, e.prepare) == 0;
    ParksOne(x, w.receiver, e.prepare);
    assert Genuine(g, w, e);
  }

  // --- the grant -----------------------------------------------------------------------------

  function Upload(x: Errand): S.Request {
    S.Upload(0, 1, Id(x), 2, x.picked.size, x.picked.path)
  }

  function Sending(x: Errand): FileEntry {
    Row(x).(token := 2, status := FileTransferring)
  }

  ghost predicate Going(x: Errand, s: S.Sender) {
    && s.busy && !s.cancelled && s.uploading && s.session == 1 && s.currentRow == 0
    && s.files == [Sending(x)] && s.issued == 2 && s.flight == map[1 := Upload(x)] && s.reply == Bytes.Some(1)
  }

  lemma GrantOne(x: Errand, grant: S.Grant)
    requires grant.tokens == Tokens(x)
    ensures S.GrantAll([Row(x)], grant) == [Row(x).(token := 2)] && S.AnyGranted([Row(x)], grant)
  {
    assert S.TokenFor(grant, [Row(x)][0].id) != 0;
  }

  lemma StartOne(x: Errand, s: S.Sender)
    requires s.files == [Row(x).(token := 2)] && !s.cancelled && s.currentRow == -1 && s.session == 1
    ensures S.StartNextFile(s, {0})
            == S.Post(s.(currentRow := 0, files := [Sending(x)]), Upload(x))
  {
    assert S.NextWaiting(s.files, 0) == 0;
    assert WithStatus(s.files, 0, FileTransferring) == [Sending(x)];
  }

  lemma GrantsOne(x: Errand, s: S.Sender, e: S.Event)
    requires x.picked.readable && s == S.Ask(S.IDLE, [Row(x)])
    requires e == S.PrepareAnswered(0, 200, Bytes.Some(S.Grant(1, Tokens(x))), {0})
    ensures S.Enabled(s, e) && Going(x, S.Next(s, e))
  {
    AsksOne(x, s);
    var t := S.Taken(s, 0);
    assert t.flight == map[];
    var grant := e.grant.value;
    GrantOne(x, grant);
    var u := t.(session := 1, files := [Row(x).(token := 2)], state := State.Active, currentRow := -1, uploading := true);
    StartOne(x, u);
    assert S.Next(s, e) == S.StartNextFile(u, {0});
  }

  ghost predicate Granted(x: Errand, w: World) {
    && Going(x, w.sender) && w.run == 1
    && 1 in w.mail && w.mail[1] == Upload(x) && w.mail.Keys == {0, 1}
    && Open(x, w.receiver) && w.receiver.conns == map[0 := Taken(x)]
    && w.wire == map[0 := 0] && w.grants == map[1 := Opening(0, Tokens(x))] && w.kept == map[] && w.shown == 1
  }

  lemma Grants(g: Setting, x: Errand, w: World, e: S.Event)
    requires Fits(g, x) && Accepted(x, w)
    requires e == S.PrepareAnswered(0, 200, Bytes.Some(S.Grant(1, Tokens(x))), {0})
    ensures Granted(x, Take(g, w, AtSender(e)))
  {
    GrantsOne(x, w.sender, e);
    assert 0 in w.wire && w.wire[0] == 0 && w.receiver.conns[0].statuses == [200];
    assert Answered(w, 0, 200);
    assert w.sender.issued == 1;
  }

  // --- the file ---------------------------------------------------------------------------------

  ghost predicate Connected(x: Errand, w: World) {
    && Going(x, w.sender) && w.run == 1
    && 1 in w.mail && w.mail[1] == Upload(x)
    && Open(x, w.receiver) && w.receiver.conns == map[0 := Taken(x), 1 := Fresh(x.address)]
    && w.wire == map[0 := 0, 1 := 1] && 1 in w.grants && w.kept == map[] && w.shown == 1
  }

  lemma Connects(g: Setting, x: Errand, w: World)
    requires Granted(x, w)
    ensures Connected(x, Take(g, w, Reaches(1, 1, x.address)))
  {
    assert 1 !in w.wire.Values;
  }

  function Streaming(x: Errand, part: Text, got: nat): R.Conn {
    R.Conn(x.address, true, false, true, false, Bytes.Some(R.Sink(part, x.picked.size)), got, [])
  }

  /** `body` of the file is in the part file. */
  ghost predicate Under(x: Errand, r: R.Service, final: Text, body: seq<Byte>) {
    var part := final + Naming.PART;
    && r.session == 1 && r.pending.None? && |r.files| == 1
    && r.files[0].(transferred := 0) == x.row.(status := FileTransferring, transferred := 0)
    && r.uploads == map[1 := R.Upload(0, part, final, body)] && r.disk == map[part := body]
    && r.conns == map[0 := Taken(x), 1 := Streaming(x, part, |body|)]
  }

  lemma AFreeName(directory: Text, name: Text) returns (final: Text)
    ensures Naming.Reserve({}, directory, name) == Bytes.Some(final) && Naming.ChildOf(directory, final)
  {
    assert NamingExhausted.Children({}, directory) == {};
    if Naming.Reserve({}, directory, name).None? {
      NamingExhausted.RefusedOnlyWhenFull({}, directory, name);
    }
    Naming.ReservedIsFresh({}, directory, name);
    final := Naming.Reserve({}, directory, name).value;
  }

  lemma AdmitsOne(x: Errand, s: R.Service)
    requires Open(x, s) && 1 in s.conns && s.conns[1].address == x.address
    requires x.row.id == Id(x) && x.row.status.FileWaiting?
    ensures R.Admission(s, 1, Head(x)) == 0 && RowOfId(s.files, Id(x)) == 0
  {
    RowOfIdFirst(s.files, Id(x), 0);
    assert Id(x)[|Naming.Number(0)|] == S.DASH;
  }

  lemma TakesOne(s: R.Service, row: FileEntry, length: int, final: Text)
    requires 1 in s.conns && s.files == [row] && s.disk.Keys == {} && length <= row.size
    requires Naming.Reserve({}, s.directory, row.fileName) == Bytes.Some(final)
    ensures R.TakeUpload(s, 1, 0, length, true, {}) == R.OpenUpload(s, 1, 0, final)
  {
  }

  lemma OpenedOne(x: Errand, s: R.Service, final: Text)
    requires s.session == 1 && s.pending.None? && s.uploads == map[] && s.disk == map[] && s.files == [x.row]
    requires s.conns == map[0 := Taken(x), 1 := Fresh(x.address).(headSeen := true)] && x.row.size == x.picked.size
    ensures Under(x, R.OpenUpload(s, 1, 0, final), final, [])
  {
    assert WithStatus(s.files, 0, FileTransferring) == [x.row.(status := FileTransferring)];
  }

  lemma OpensOne(x: Errand, s: R.Service, v: R.Service, final: Text)
    requires Open(x, s) && s.conns == map[0 := Taken(x), 1 := Fresh(x.address)]
    requires x.row.id == Id(x) && x.row.size == x.picked.size && x.row.status.FileWaiting?
    requires Naming.Reserve({}, x.directory, x.row.fileName) == Bytes.Some(final)
    requires v == R.UploadHead(s, 1, Head(x), true, {})
    ensures R.Admission(s, 1, Head(x)) == 0 && Under(x, v, final, [])
  {
    AdmitsOne(x, s);
    RR.HeadIsTake(s, 1, Head(x), true, {});
    var t := RR.HeadSeen(s, 1);
    SeenOne(x, s, t);
    TakesOne(t, x.row, x.picked.size, final);
    OpenedOne(x, t, final);
  }

  lemma SeenOne(x: Errand, s: R.Service, t: R.Service)
    requires Open(x, s) && s.conns == map[0 := Taken(x), 1 := Fresh(x.address)] && t == RR.HeadSeen(s, 1)
    ensures t.conns == map[0 := Taken(x), 1 := Fresh(x.address).(headSeen := true)]
    ensures t.disk.Keys == {} && t == s.(conns := t.conns)
  {
  }

  ghost predicate Carrying(x: Errand, w: World, final: Text, body: seq<Byte>) {
    && Going(x, w.sender) && w.run == 1
    && 1 in w.mail && w.mail[1] == Upload(x)
    && Under(x, w.receiver, final, body)
    && w.wire == map[0 := 0, 1 := 1] && 1 in w.grants && w.kept == map[] && w.shown == 1
  }

  lemma ReceiverTakes(g: Setting, w: World, e: R.Event)
    requires R.Enabled(w.receiver, e) && Genuine(g, w, e)
    ensures Take(g, w, AtReceiver(e, {})) == ToReceiver(g, w, e, {})
  {
  }

  /** While its session lasts, an event at the receiver changes the receiver and what is kept. */
  lemma SameBooks(g: Setting, w: World, e: R.Event, t: R.Service)
    requires R.Enabled(w.receiver, e) && t == R.Next(g.env, w.receiver, e, {}) && w.receiver.session != 0
    requires w.shown == w.receiver.session == t.session
    ensures ToReceiver(g, w, e, {}) == w.(receiver := t, kept := KeptAfter(g, w, e))
  {
  }

  lemma Opens(g: Setting, x: Errand, w: World, e: R.Event, final: Text, t: R.Service)
    requires Fits(g, x) && Connected(x, w) && e == R.UploadHeaders(1, Head(x), true)
    requires Naming.Reserve({}, x.directory, x.row.fileName) == Bytes.Some(final)
    requires t == R.UploadHead(w.receiver, 1, Head(x), true, {})
    ensures Carrying(x, Take(g, w, AtReceiver(e, {})), final, [])
  {
    OpensOne(x, w.receiver, t, final);
    assert R.Enabled(w.receiver, e) && Genuine(g, w, e);
    assert t == R.Next(g.env, w.receiver, e, {});
    ReceiverTakes(g, w, e);
    SameBooks(g, w, e, t);
  }

  lemma WritesOne(x: Errand, s: R.Service, final: Text, body: seq<Byte>)
    requires Under(x, s, final, []) && |body| == x.picked.size
    ensures Under(x, R.UploadData(s, 1, body, |body|, {}), final, body)
  {
    var part := final + Naming.PART;
    assert body[..|body|] == body && [] + body == body;
    var t := R.Written(s, 1, body);
    assert t.disk == map[part := body] && t.uploads == map[1 := R.Upload(0, part, final, body)];
    var u := R.Progress(t, 1, |body|);
    assert u.conns == map[0 := Taken(x), 1 := Streaming(x, part, |body|)];
  }

  lemma Writes(g: Setting, x: Errand, w: World, e: R.Event, final: Text, body: seq<Byte>)
    requires Fits(g, x) && Carrying(x, w, final, []) && body == g.source(x.picked.path) != [] && e == R.Block(1, body, |body|)
    ensures Carrying(x, Take(g, w, AtReceiver(e, {})), final, body)
  {
    WritesMay(g, x, w, e, final, body);
    WritesOne(x, w.receiver, final, body);
    assert R.Next(g.env, w.receiver, e, {}) == R.UploadData(w.receiver, 1, body, |body|, {});
  }

  lemma WritesMay(g: Setting, x: Errand, w: World, e: R.Event, final: Text, body: seq<Byte>)
    requires Carrying(x, w, final, []) && body == g.source(x.picked.path) && |body| > 0 && e == R.Block(1, body, |body|)
    ensures R.Enabled(w.receiver, e) && Genuine(g, w, e)
  {
    assert body[0..|body|] == body;
  }

  // --- the end ------------------------------------------------------------------------------------

  ghost predicate Kept(x: Errand, r: R.Service, final: Text, body: seq<Byte>) {
    && r.session == 0 && r.disk == map[final := body]
    && |r.files| == 1 && r.files[0].id == Id(x) && IsDone(r.files[0]) && r.files[0].localPath == final
    && 1 in r.conns && r.conns[1].statuses == [200] && r.conns[1].address == x.address
  }

  lemma SettlesOne(s: R.Service, u: R.Upload, f: FileEntry, body: seq<Byte>)
    requires s.files == [f] && u.row == 0 && s.disk == map[u.part := body] && u.final != u.part
    ensures var t := R.Settle(s, u, true);
            && t.disk == map[u.final := body] && t.session == s.session && t.pending == s.pending && t.uploads == s.uploads
            && t.files == [f.(localPath := u.final, status := FileDone, transferred := f.size)] && t.conns == s.conns
  {
  }

  lemma FinishesOne(s: R.Service, f: FileEntry)
    requires s.session != 0 && s.pending.None? && s.uploads == map[] && s.files == [f] && IsDone(f)
    ensures var t := R.FinishIfSettled(s, {});
            t.session == 0 && t.disk == s.disk && t.files == [f] && t.conns == s.conns
  {
    assert AllSettled(s.files);
    assert R.AnswerAll(s.conns, {}, 500, {}) == s.conns;
    assert s.disk - {} == s.disk;
    assert R.CutOffAll(s.files, {}) == [f];
  }

  /** `part` is the upload's part file, and the whole body is in it. */
  lemma EndsOne(g: Setting, x: Errand, s: R.Service, final: Text, body: seq<Byte>, t: R.Service)
    requires Under(x, s, final, body) && |body| == x.picked.size && x.row.id == Id(x) && x.row.size == x.picked.size
    requires g.env.accepts(body, x.row.sha256) && t == R.UploadEnd(g.env, s, 1, true, {})
    ensures R.Outcome(g.env, s, s.uploads[1]) == 200 && R.KeptPath(s, s.uploads[1], true) == final
    ensures Kept(x, t, final, body)
  {
    var part, u := final + Naming.PART, s.uploads[1];
    assert |part| > |final|;
    var seen := s.(conns := s.conns[1 := s.conns[1].(complete := true)]);
    var v := R.Settle(seen.(uploads := seen.uploads - {1}), u, true);
    assert seen.uploads - {1} == map[];
    SettlesOne(seen.(uploads := seen.uploads - {1}), u, s.files[0], body);
    var answered := R.Reply(v, 1, 200, {});
    assert answered.conns[1].statuses == [] + [200];
    FinishesOne(answered.(idleTimer := true), v.files[0]);
  }

  ghost predicate Finished(x: Errand, w: World, final: Text, body: seq<Byte>) {
    && Going(x, w.sender)
    && Kept(x, w.receiver, final, body) && 1 in w.wire && w.wire[1] == 1
  }

  lemma Ends(g: Setting, x: Errand, w: World, e: R.Event, final: Text, body: seq<Byte>)
    requires Fits(g, x) && Carrying(x, w, final, body) && body == g.source(x.picked.path) && e == R.BodyEnd(1, true)
    ensures Finished(x, Take(g, w, AtReceiver(e, {})), final, body)
  {
    EndsOne(g, x, w.receiver, final, body, R.UploadEnd(g.env, w.receiver, 1, true, {}));
    assert R.Enabled(w.receiver, e) && Genuine(g, w, e);
    assert R.Next(g.env, w.receiver, e, {}) == R.UploadEnd(g.env, w.receiver, 1, true, {});
    ReceiverTakes(g, w, e);
  }

  lemma LastOne(x: Errand, s: S.Sender, e: S.Event)
    requires Going(x, s) && e == S.UploadAnswered(1, 200, false, {})
    ensures S.Enabled(s, e)
    ensures var t := S.Next(s, e); t.state.Finished? && !t.busy && t.files == [Sending(x).(status := FileDone, transferred := x.picked.size)]
  {
    var done := Sending(x).(status := FileDone, transferred := x.picked.size);
    var t := S.Taken(s, 1).(files := [done]);
    assert WithStatus(s.files, 0, FileDone) == [done];
    assert S.NextWaiting(t.files, 1) == 1;
    assert t.files[..0] == [];
    assert Count(t.files, IsDone) == 1;
    assert S.Next(s, e) == S.Complete(t);
  }

  lemma Concludes(g: Setting, x: Errand, w: World, e: S.Event, final: Text, body: seq<Byte>)
    requires Finished(x, w, final, body) && e == S.UploadAnswered(1, 200, false, {})
    ensures var v := Take(g, w, AtSender(e));
            && v.sender.state.Finished? && |v.sender.files| == 1 && IsDone(v.sender.files[0])
            && v.receiver == w.receiver && v.wire == w.wire
  {
    LastOne(x, w.sender, e);
    assert Answered(w, 1, 200);
    assert Plausible(g, w, e);
  }

  // --- from the beginning ---------------------------------------------------------------------------

  /** The file is asked for and granted, and its upload connects. */
  lemma Handshake(g: Setting, x: Errand) returns (w: World)
    requires Fits(g, x) && AsOffered(x)
    ensures Reachable(g, w) && Connected(x, w)
  {
    var e := S.UserSends(true, false, [x.picked]);
    assert RunAll(g, Start(map[]), []) == Start(map[]);
    Asks(g, x, e, Start(map[]));
    ReachNext(g, Start(map[]), AtSender(e));
    w := Take(g, Start(map[]), AtSender(e));
    w := Grant(g, x, w);
  }

  lemma Grant(g: Setting, x: Errand, asked: World) returns (w: World)
    requires Fits(g, x) && AsOffered(x) && Reachable(g, asked) && Asked(x, asked)
    ensures Reachable(g, w) && Connected(x, w)
  {
    Arrives(g, x, asked);
    ReachNext(g, asked, Reaches(0, 0, x.address));
    w := Take(g, asked, Reaches(0, 0, x.address));
    var request := R.PrepareRequest(0, Request(x));
    Accepts(g, x, w, request);
    ReachNext(g, w, AtReceiver(request, {}));
    w := Take(g, w, AtReceiver(request, {}));
    w := TakeUp(g, x, w);
  }

  lemma TakeUp(g: Setting, x: Errand, accepted: World) returns (w: World)
    requires Fits(g, x) && Reachable(g, accepted) && Accepted(x, accepted)
    ensures Reachable(g, w) && Connected(x, w)
  {
    var answer := S.PrepareAnswered(0, 200, Bytes.Some(S.Grant(1, Tokens(x))), {0});
    Grants(g, x, accepted, answer);
    ReachNext(g, accepted, AtSender(answer));
    w := Take(g, accepted, AtSender(answer));
    Connects(g, x, w);
    ReachNext(g, w, Reaches(1, 1, x.address));
    w := Take(g, w, Reaches(1, 1, x.address));
  }

  lemma OpensStep(g: Setting, x: Errand, w: World) returns (v: World, final: Text)
    requires Fits(g, x) && Reachable(g, w) && Connected(x, w)
    ensures Reachable(g, v) && Carrying(x, v, final, []) && Naming.ChildOf(x.directory, final)
    ensures Naming.Reserve({}, x.directory, x.row.fileName) == Bytes.Some(final)
  {
    var e := R.UploadHeaders(1, Head(x), true);
    final := AFreeName(x.directory, x.row.fileName);
    Opens(g, x, w, e, final, R.UploadHead(w.receiver, 1, Head(x), true, {}));
    ReachNext(g, w, AtReceiver(e, {}));
    v := Take(g, w, AtReceiver(e, {}));
  }

  /** An empty file has no block. */
  lemma WritesStep(g: Setting, x: Errand, w: World, final: Text, body: seq<Byte>) returns (v: World)
    requires Fits(g, x) && Reachable(g, w) && Carrying(x, w, final, []) && body == g.source(x.picked.path)
    ensures Reachable(g, v) && Carrying(x, v, final, body)
  {
    v := w;
    if body != [] {
      var e := R.Block(1, body, |body|);
      Writes(g, x, w, e, final, body);
      ReachNext(g, w, AtReceiver(e, {}));
      v := Take(g, w, AtReceiver(e, {}));
    }
  }

  /** The sender is finished with the file, and it came from his address and lies in the folder the
      receiver chose, with the bytes it had. */
  ghost predicate Landed(g: Setting, w: World, picked: S.Source, address: Text, directory: Text, path: Text) {
    && 1 in w.wire && 1 in w.receiver.conns && w.receiver.conns[1].address == address
    && w.sender.state.Finished? && |w.sender.files| == 1 && IsDone(w.sender.files[0])
    && Naming.ChildOf(directory, path) && path in w.receiver.disk && w.receiver.disk[path] == g.source(picked.path)
    && |w.receiver.files| == 1 && IsDone(w.receiver.files[0]) && w.receiver.files[0].localPath == path
  }

  lemma Settles(g: Setting, x: Errand, sent: World, final: Text) returns (w: World)
    requires Fits(g, x) && Reachable(g, sent) && Carrying(x, sent, final, g.source(x.picked.path))
    requires Naming.ChildOf(x.directory, final)
    ensures Reachable(g, w) && Landed(g, w, x.picked, x.address, x.directory, final)
  {
    var end, answer := R.BodyEnd(1, true), S.UploadAnswered(1, 200, false, {});
    Ends(g, x, sent, end, final, g.source(x.picked.path));
    ReachNext(g, sent, AtReceiver(end, {}));
    w := Take(g, sent, AtReceiver(end, {}));
    Concludes(g, x, w, answer, final, g.source(x.picked.path));
    ReachNext(g, w, AtSender(answer));
    w := Take(g, w, AtSender(answer));
  }

  /** Picked, asked for, accepted, granted, sent, kept and answered. */
  lemma Whole(g: Setting, x: Errand) returns (w: World, final: Text)
    requires Fits(g, x) && AsOffered(x)
    ensures Reachable(g, w) && Landed(g, w, x.picked, x.address, x.directory, final)
    ensures Naming.Reserve({}, x.directory, x.row.fileName) == Bytes.Some(final)
  {
    w := Handshake(g, x);
    w, final := OpensStep(g, x, w);
    w := WritesStep(g, x, w, final, g.source(x.picked.path));
    w := Settles(g, x, w, final);
  }

  lemma NoDigest(text: Text, limit: nat)
    requires text == []
    ensures Naming.SanitizeText(text, limit) == []
  {
  }

  lemma EntryPlain(d: R.Descriptor)
    requires d.sha256 == []
    ensures var f := R.EntryOf(d);
            f.id == d.id && f.fileName == NameOf(d.fileName) && f.size == (if d.size < 0 then 0 else d.size) && f.sha256 == [] && f.token == 0 && f.status.FileWaiting?
  {
    NoDigest(d.sha256, 128);
  }

  lemma RowFor(d: R.Descriptor, offered: seq<R.Descriptor>) returns (row: FileEntry)
    requires offered == [d] && d.sha256 == [] && d.size >= 0
    ensures R.EntriesOf(offered) == [row.(token := 0)]
    ensures row.id == d.id && row.fileName == NameOf(d.fileName) && row.size == d.size && row.sha256 == [] && row.token == 2 && row.status.FileWaiting?
  {
    EntryPlain(d);
    row := R.EntryOf(d).(token := 2);
  }

  /** Any file can be sent, an empty one too, from any address and to any folder: there is a run at whose
      end it lies there. */
  lemma OneFileArrives(g: Setting, picked: S.Source, address: Text, directory: Text)
    requires picked.readable && picked.size == |g.source(picked.path)| && g.env.accepts(g.source(picked.path), [])
    ensures exists w, path :: Reachable(g, w) && Landed(g, w, picked, address, directory, path)
  {
    var offered := Described([S.Offer(S.IdOf(0, picked.salt), picked.fileName, picked.size)]);
    var row := RowFor(offered[0], offered);
    var w, path := Whole(g, Errand(picked, address, directory, row));
  }

  // --- and be lost -------------------------------------------------------------------------------

  /** The first name tried is the clean one, and in an empty folder it is free. */
  lemma ProbesPlace(directory: Text, fileName: Text, final: Text)
    requires RN.LikeProbe(fileName) && Naming.Reserve({}, directory, fileName) == Bytes.Some(final)
    ensures final == R.ProbePath(directory)
  {
    var paths := Naming.Candidates(directory, Naming.PROBE);
    assert paths[0] == Naming.Candidate(directory, Naming.PROBE, 0) == R.ProbePath(directory);
    assert Naming.FirstFree({}, paths) == Bytes.Some(paths[0]);
  }

  /** A file called like the write probe arrives, the sender is finished with it, and then the receiver's
      next session in that folder removes it. */
  lemma ProbeNamedIsLost(g: Setting, picked: S.Source, address: Text, directory: Text)
    requires picked.readable && picked.size == |g.source(picked.path)| && g.env.accepts(g.source(picked.path), [])
    requires RN.LikeProbe(NameOf(picked.fileName))
    ensures exists w, path, events :: Reachable(g, w) && Landed(g, w, picked, address, directory, path)
              && RunAll(g, w, events).sender == w.sender && path !in RunAll(g, w, events).receiver.disk
  {
    var offered := Described([S.Offer(S.IdOf(0, picked.salt), picked.fileName, picked.size)]);
    var row := RowFor(offered[0], offered);
    var w, path := Whole(g, Errand(picked, address, directory, row));
    ProbesPlace(directory, row.fileName, path);
    var events := LaterLost(g, w, directory);
  }

  lemma LaterLost(g: Setting, w: World, directory: Text) returns (events: seq<Event>)
    requires Reachable(g, w)
    ensures RunAll(g, w, events).sender == w.sender && R.ProbePath(directory) !in RunAll(g, w, events).receiver.disk
  {
    var past :| RunAll(g, Start(map[]), past) == w;
    StartInv(g, map[]);
    RunKeeps(g, Start(map[]), past);
    var d := RP.SomeFresh(w.receiver.conns.Keys);
    assert d !in w.receiver.conns;
    events := EP.Script(d, directory);
    EP.ProbeIsLost(g, w, d, directory);
  }
}
