/** What an event of the receiving side leaves alone: rows that are finished, uploads that go on, and
    answers that have been given. */
module ReceiveRows {
  import opened Transfers
  import opened Receive
  import opened ReceiveInvariant
  import Bytes
  import Naming

  /** The first answer to it reads as a success. */
  predicate Good(c: Conn) {
    c.statuses != [] && 200 <= c.statuses[0] < 300
  }

  /** Nobody but those in `x` is told of a success. */
  ghost predicate ConnsHeld(a: map<ConnId, Conn>, b: map<ConnId, Conn>, x: set<ConnId>) {
    forall c :: c in a ==>
      && c in b
      && (a[c].complete ==> b[c].complete)
      && (c !in x && Good(b[c]) ==> Good(a[c]))
  }

  ghost predicate RowHeld(s: Service, t: Service, j: nat)
    requires j < |s.files| == |t.files|
  {
    && t.files[j].id == s.files[j].id && t.files[j].fileName == s.files[j].fileName
    && (IsDone(t.files[j]) ==> IsDone(s.files[j]))
    && (IsDone(s.files[j]) && j !in RowsOf(s.uploads) ==> t.files[j] == s.files[j] && j !in RowsOf(t.uploads))
  }

  ghost predicate RowsHeld(s: Service, t: Service) {
    |s.files| == |t.files| && forall j: nat :: j < |s.files| ==> RowHeld(s, t, j)
  }

  ghost predicate UploadHeld(s: Service, t: Service, c: ConnId)
    requires c in t.uploads
  {
    && c in s.uploads && t.uploads[c] == s.uploads[c]
    && (s.uploads[c].part in s.disk ==>
          s.uploads[c].part in t.disk && t.disk[s.uploads[c].part] == s.disk[s.uploads[c].part])
  }

  /** No upload begins, none that goes on gains a byte, no row becomes finished, and those that are
      stay so unless somebody is sending the file again. */
  ghost predicate Quiet(s: Service, t: Service, x: set<ConnId>) {
    && ConnsHeld(s.conns, t.conns, x)
    && RowsHeld(s, t)
    && (forall c :: c in t.uploads ==> UploadHeld(s, t, c))
    && (t.session == s.session || t.session == 0)
    && (t.pending == s.pending || t.pending.None?)
    && t.issued == s.issued
  }

  lemma QuietTwice(s: Service, t: Service, u: Service, x: set<ConnId>, y: set<ConnId>)
    requires Quiet(s, t, x) && Quiet(t, u, y) && x <= y
    ensures Quiet(s, u, y)
  {
    forall j: nat | j < |s.files|
      ensures RowHeld(s, u, j)
    {
      assert RowHeld(s, t, j) && RowHeld(t, u, j);
    }
    forall c | c in u.uploads
      ensures UploadHeld(s, u, c)
    {
      assert UploadHeld(t, u, c) && UploadHeld(s, t, c);
    }
  }

  /** Being allowed more winners is no loss. */
  lemma QuietWiden(s: Service, t: Service, x: set<ConnId>, y: set<ConnId>)
    requires Quiet(s, t, x) && x <= y
    ensures Quiet(s, t, y)
  {
  }

  lemma QuietSelf(s: Service, idle: bool)
    ensures Quiet(s, s, {}) && Quiet(s, s.(idleTimer := idle), {})
  {
  }

  /** ... and then the session may end. */
  lemma QuietFinish(s: Service, t: Service, x: set<ConnId>, how: Ending, drops: set<ConnId>)
    requires Quiet(s, t, x)
    ensures Quiet(s, FinishSession(t, how, drops), x)
  {
    FinishQuiet(t, how, drops);
    QuietWiden(t, FinishSession(t, how, drops), {}, x);
    QuietTwice(s, t, FinishSession(t, how, drops), x, x);
  }

  // --- the pieces --------------------------------------------------------------------------

  lemma MarkedQuietly(c: Conn, status: int, drops: bool)
    requires !(200 <= status < 300)
    ensures Good(Mark(c, status, drops)) ==> Good(c)
  {
  }

  lemma ReplyQuiet(s: Service, c: ConnId, status: int, drops: set<ConnId>)
    ensures Quiet(s, Reply(s, c, status, drops), if 200 <= status < 300 then {c} else {})
  {
    var t := Reply(s, c, status, drops);
    forall d | d in s.conns && !(200 <= status < 300)
      ensures Good(t.conns[d]) ==> Good(s.conns[d])
    {
      MarkedQuietly(s.conns[d], status, d in drops);
    }
  }

  lemma SeenQuiet(s: Service, c: ConnId, conn: Conn)
    requires c in s.conns && conn.statuses == s.conns[c].statuses && (s.conns[c].complete ==> conn.complete)
    ensures Quiet(s, s.(conns := s.conns[c := conn]), {})
  {
  }

  lemma AnswersHeld(conns: map<ConnId, Conn>, who: set<ConnId>, status: int, drops: set<ConnId>)
    requires !(200 <= status < 300)
    ensures ConnsHeld(conns, AnswerAll(conns, who, status, drops), {})
  {
  }

  lemma HeldTwice(a: map<ConnId, Conn>, b: map<ConnId, Conn>, c: map<ConnId, Conn>)
    requires ConnsHeld(a, b, {}) && ConnsHeld(b, c, {})
    ensures ConnsHeld(a, c, {})
  {
  }

  lemma FinishConns(s: Service, how: Ending, drops: set<ConnId>)
    ensures ConnsHeld(s.conns, FinishSession(s, how, drops).conns, {})
  {
    var cut := AnswerAll(s.conns, s.uploads.Keys, 500, drops);
    AnswersHeld(s.conns, s.uploads.Keys, 500, drops);
    if s.pending.Some? {
      AnswersHeld(cut, {s.pending.value}, 403, drops);
      HeldTwice(s.conns, cut, AnswerAll(cut, {s.pending.value}, 403, drops));
    }
  }

  lemma FinishQuiet(s: Service, how: Ending, drops: set<ConnId>)
    ensures Quiet(s, FinishSession(s, how, drops), {})
  {
    FinishConns(s, how, drops);
    var t := FinishSession(s, how, drops);
    forall j: nat | j < |s.files|
      ensures RowHeld(s, t, j)
    {
    }
  }

  lemma DropQuiet(s: Service, c: ConnId)
    requires c in s.uploads && PartsApart(s.uploads)
    ensures Quiet(s, DropUpload(s, c), {})
  {
    var t := DropUpload(s, c);
    forall j: nat | j < |s.files|
      ensures RowHeld(s, t, j)
    {
      assert s.uploads[c].row in RowsOf(s.uploads);
      assert RowsOf(t.uploads) <= RowsOf(s.uploads);
    }
  }

  lemma ClosedQuiet(s: Service, c: ConnId, drops: set<ConnId>)
    requires PartsApart(s.uploads)
    ensures Quiet(s, SlotsOnClosed(s, c, drops), {})
  {
    if s.pending != Bytes.Some(c) && c in s.uploads {
      var t := DropUpload(s, c);
      DropQuiet(s, c);
      FinishQuiet(t, Over, drops);
      QuietTwice(s, t, FinishSession(t, Over, drops), {}, {});
    }
  }

  lemma RespondQuiet(s: Service, c: ConnId, status: int, drops: set<ConnId>)
    requires PartsApart(s.uploads) && !(200 <= status < 300)
    ensures Quiet(s, Respond(s, c, status, drops), {})
  {
    var t := Reply(s, c, status, drops);
    ReplyQuiet(s, c, status, drops);
    ClosedQuiet(t, c, drops);
    QuietTwice(s, t, SlotsOnClosed(t, c, drops), {}, {});
    assert Quiet(s, s, {});
  }

  lemma SocketGoneQuiet(s: Service, c: ConnId, drops: set<ConnId>)
    requires PartsApart(s.uploads)
    ensures Quiet(s, SocketGone(s, c, drops), {})
  {
    assert Quiet(s, s, {});
    if c in s.conns {
      var conn := s.conns[c].(open := false, answered := true);
      var t := s.(conns := s.conns[c := conn]);
      SeenQuiet(s, c, conn);
      ClosedQuiet(t, c, drops);
      QuietTwice(s, t, SlotsOnClosed(t, c, drops), {}, {});
    }
  }

  lemma FailRowQuiet(s: Service, c: ConnId, row: nat, drops: set<ConnId>)
    requires row < |s.files| && !IsDone(s.files[row])
    ensures Quiet(s, FailRow(s, c, row, drops), {})
  {
    var t := s.(files := WithStatus(s.files, row, FileFailed));
    assert Quiet(s, t, {});
    ReplyQuiet(t, c, 500, drops);
    QuietTwice(s, t, FailRow(s, c, row, drops), {}, {});
  }

  // --- events ---------------------------------------------------------------------------------

  /** The request goes on to the folder, and a name is free there. */
  predicate Opens(s: Service, c: ConnId, r: UploadRequest)
    requires c in s.conns
  {
    && Admission(s, c, r) == 0
    && Naming.Reserve(s.disk.Keys, s.directory, s.files[RowOfId(s.files, r.fileId)].fileName).Some?
  }

  /** An event that begins an upload, adds to one or ends one well, or replaces the rows. */
  predicate Stirs(env: Env, s: Service, e: Event)
    requires Enabled(s, e)
  {
    match e
    case PrepareRequest(c, p) => Verdict(s, p) == 0
    case UploadHeaders(c, r, opens) => Opens(s, c, r) && opens
    case Block(c, data, taken) => c in s.uploads && s.conns[c].received + |data| <= s.conns[c].sink.value.ceiling
    case BodyEnd(c, renames) => c in s.uploads && Outcome(env, s, s.uploads[c]) == 200
    case UserAccepts(folder) => s.pending.Some? && folder.Some?
    case _ => false
  }

  /** Who may hear of a success. */
  function Winners(s: Service, e: Event): set<ConnId>
    requires Enabled(s, e)
  {
    match e
    case PrepareRequest(c, p) => {c}
    case UploadHeaders(c, r, _) => if Admission(s, c, r) == 200 then {c} else {}
    case CancelRequest(c, _) => {c}
    case OtherRequest(c, _) => {c}
    case _ => {}
  }

  lemma SeenThenReply(s: Service, c: ConnId, conn: Conn, status: int, drops: set<ConnId>)
    requires c in s.conns && conn.statuses == s.conns[c].statuses && (s.conns[c].complete ==> conn.complete)
    ensures Quiet(s, Reply(s.(conns := s.conns[c := conn]), c, status, drops), if 200 <= status < 300 then {c} else {})
  {
    var t := s.(conns := s.conns[c := conn]);
    SeenQuiet(s, c, conn);
    ReplyQuiet(t, c, status, drops);
    QuietTwice(s, t, Reply(t, c, status, drops), {}, if 200 <= status < 300 then {c} else {});
  }

  lemma HeadQuiet(env: Env, s: Service, e: Event, drops: set<ConnId>)
    requires Enabled(s, e) && e.UploadHeaders? && !Stirs(env, s, e)
    ensures Quiet(s, Next(env, s, e, drops), Winners(s, e))
  {
    var c := e.c;
    var conn := s.conns[c].(headSeen := true);
    var t := s.(conns := s.conns[c := conn]);
    var status := Admission(s, c, e.request);
    assert Admission(t, c, e.request) == status;
    if status != 0 {
      SeenThenReply(s, c, conn, status, drops);
    } else {
      var row := RowOfId(s.files, e.request.fileId);
      SeenQuiet(s, c, conn);
      FailRowQuiet(t, c, row, drops);
      QuietTwice(s, t, FailRow(t, c, row, drops), {}, {});
    }
  }

  /** Bytes for a file that is not open go nowhere. */
  lemma StrayQuiet(s: Service, c: ConnId, data: seq<Byte>, total: nat, drops: set<ConnId>)
    requires c in s.conns && s.conns[c].sink.Some? && c !in s.uploads && PartsApart(s.uploads)
    ensures Quiet(s, Respond(Written(s, c, data), c, 500, drops), {})
    ensures Quiet(s, Progress(Written(s, c, data), c, total), {})
  {
    var t := Written(s, c, data);
    assert Quiet(s, t, {}) by { QuietSelf(s, s.idleTimer); }
    RespondQuiet(t, c, 500, drops);
    QuietTwice(s, t, Respond(t, c, 500, drops), {}, {});
    var conn := t.conns[c].(received := total);
    SeenQuiet(t, c, conn);
    QuietTwice(s, t, t.(conns := t.conns[c := conn]), {}, {});
  }

  lemma DataQuiet(s: Service, c: ConnId, data: seq<Byte>, taken: nat, drops: set<ConnId>, u: Service)
    requires c in s.conns && s.conns[c].sink.Some? && taken <= |data| && PartsApart(s.uploads)
    requires c in s.uploads ==> s.conns[c].received + |data| > s.conns[c].sink.value.ceiling
    requires u == UploadData(s, c, data, taken, drops)
    ensures Quiet(s, u, {})
  {
    var total := s.conns[c].received + |data|;
    if total > s.conns[c].sink.value.ceiling {
      assert u == Respond(s, c, 413, drops);
      RespondQuiet(s, c, 413, drops);
    } else {
      var t := Written(s, c, data[..taken]);
      assert u == if taken < |data| then Respond(t, c, 500, drops) else Progress(t, c, total);
      StrayQuiet(s, c, data[..taken], total, drops);
    }
  }

  lemma EndQuiet(env: Env, s: Service, e: Event, drops: set<ConnId>)
    requires Enabled(s, e) && e.BodyEnd? && !Stirs(env, s, e) && PartsApart(s.uploads)
    ensures Quiet(s, Next(env, s, e, drops), {})
  {
    var c := e.c;
    var conn := s.conns[c].(complete := true);
    var t := s.(conns := s.conns[c := conn]);
    SeenThenReply(s, c, conn, 400, drops);
    if c in s.uploads {
      SeenQuiet(s, c, conn);
      DropQuiet(t, c);
      QuietTwice(s, t, DropUpload(t, c), {}, {});
      TailQuiet(s, DropUpload(t, c), c, Outcome(env, t, t.uploads[c]), drops);
    }
  }

  lemma AnsweredQuiet(s: Service, v: Service, c: ConnId, status: int, drops: set<ConnId>, x: set<ConnId>)
    requires Quiet(s, v, {}) && x == if 200 <= status < 300 then {c} else {}
    ensures Quiet(s, Reply(v, c, status, drops), x)
  {
    ReplyQuiet(v, c, status, drops);
    QuietTwice(s, v, Reply(v, c, status, drops), {}, x);
  }

  /** Timers and the state shown are nobody's row. */
  lemma TrimmedQuiet(s: Service, t: Service, u: Service, x: set<ConnId>)
    requires Quiet(s, t, x)
    requires u == t.(idleTimer := u.idleTimer, acceptTimer := u.acceptTimer, state := u.state, pending := u.pending)
    requires u.pending == t.pending || u.pending.None?
    ensures Quiet(s, u, x)
  {
    forall j: nat | j < |s.files|
      ensures RowHeld(s, u, j)
    {
      assert RowHeld(s, t, j);
    }
    forall c | c in u.uploads
      ensures UploadHeld(s, u, c)
    {
      assert UploadHeld(s, t, c);
    }
  }

  lemma SettledQuiet(s: Service, u: Service, x: set<ConnId>, drops: set<ConnId>)
    requires Quiet(s, u, x)
    ensures Quiet(s, FinishIfSettled(u, drops), x)
  {
    if AllSettled(u.files) {
      QuietFinish(s, u, x, Over, drops);
    }
  }

  /** A whole body is answered, and the session ends if that was its last file. */
  lemma TailQuiet(s: Service, v: Service, c: ConnId, status: int, drops: set<ConnId>)
    requires Quiet(s, v, {})
    ensures Quiet(s, FinishIfSettled(Reply(v, c, status, drops).(idleTimer := true), drops),
                  if 200 <= status < 300 then {c} else {})
  {
    var x := if 200 <= status < 300 then {c} else {};
    var w := Reply(v, c, status, drops);
    AnsweredQuiet(s, v, c, status, drops, x);
    TrimmedQuiet(s, w, w.(idleTimer := true), x);
    SettledQuiet(s, w.(idleTimer := true), x, drops);
  }

  lemma CancelQuiet(env: Env, s: Service, e: Event, drops: set<ConnId>)
    requires Enabled(s, e) && e.CancelRequest?
    ensures Quiet(s, Next(env, s, e, drops), {e.c})
  {
    var c := e.c;
    var conn := s.conns[c].(headSeen := true, complete := true);
    var t := Reply(s.(conns := s.conns[c := conn]), c, 200, drops);
    SeenThenReply(s, c, conn, 200, drops);
    QuietFinish(s, t, {c}, Stopped, drops);
    TrimmedQuiet(s, t, t.(pending := Bytes.None, acceptTimer := false, state := State.Cancelled), {c});
  }

  lemma IdleQuiet(s: Service, drops: set<ConnId>)
    ensures Quiet(s, SessionIdle(s, drops), {})
  {
    QuietSelf(s, false);
    QuietFinish(s, s.(idleTimer := false), {}, Over, drops);
  }

  // --- what follows an event that is not quiet ------------------------------------------------

  /** A length that is too large is refused as soon as the file is open. */
  lemma AfterOpening(u: Service, c: ConnId, v: Service, drops: set<ConnId>)
    requires PartsApart(u.uploads) && (v == u || v == Respond(u, c, 413, drops))
    ensures Quiet(u, v, {})
  {
    QuietSelf(u, u.idleTimer);
    RespondQuiet(u, c, 413, drops);
  }

  lemma ProgressQuiet(t: Service, c: ConnId, total: nat)
    requires c in t.conns && c in t.uploads
    ensures Quiet(t, Progress(t, c, total), {})
  {
    var v := Progress(t, c, total);
    forall j: nat | j < |t.files|
      ensures RowHeld(t, v, j)
    {
      assert t.uploads[c].row in RowsOf(t.uploads);
    }
  }

  /** Once its bytes are in the file, a block is counted or answered. */
  lemma AfterWriting(t: Service, c: ConnId, total: nat, v: Service, drops: set<ConnId>)
    requires PartsApart(t.uploads) && c in t.conns && c in t.uploads
    requires v == Progress(t, c, total) || v == Respond(t, c, 500, drops)
    ensures Quiet(t, v, {})
  {
    ProgressQuiet(t, c, total);
    RespondQuiet(t, c, 500, drops);
  }

  /** Requests that are answered on the spot. */
  lemma AnswerQuiet(env: Env, s: Service, e: Event, drops: set<ConnId>)
    requires Enabled(s, e) && (e.PrepareRequest? || e.OtherRequest?) && !Stirs(env, s, e)
    ensures Quiet(s, Next(env, s, e, drops), {e.c})
  {
    var status := if e.OtherRequest? then e.status else Verdict(s, e.prepare);
    var conn := s.conns[e.c].(headSeen := true, complete := true);
    SeenThenReply(s, e.c, conn, status, drops);
    QuietWiden(s, Reply(s.(conns := s.conns[e.c := conn]), e.c, status, drops), if 200 <= status < 300 then {e.c} else {}, {e.c});
  }

  lemma DeclineQuiet(s: Service, drops: set<ConnId>)
    ensures Quiet(s, Decline(s, drops), {})
  {
    if s.pending.Some? {
      ReplyQuiet(s, s.pending.value, 403, drops);
      TrimmedQuiet(s, Reply(s, s.pending.value, 403, drops), Decline(s, drops), {});
    } else {
      QuietSelf(s, s.idleTimer);
    }
  }

  /** The folder could not be written to. */
  lemma RefusedQuiet(s: Service, drops: set<ConnId>)
    ensures Quiet(s, Accept(s, Bytes.None, drops), {})
  {
    QuietSelf(s, s.idleTimer);
    if s.pending.Some? {
      var t := Reply(s, s.pending.value, 500, drops);
      ReplyQuiet(s, s.pending.value, 500, drops);
      TrimmedQuiet(s, t, Accept(s, Bytes.None, drops), {});
    }
  }

  lemma UserCancelQuiet(s: Service, drops: set<ConnId>)
    ensures Quiet(s, UserCancel(s, drops), {})
  {
    DeclineQuiet(s, drops);
    FinishQuiet(s, Stopped, drops);
    QuietSelf(s, s.idleTimer);
  }

  /** Every other event is quiet. */
  lemma NextQuiet(env: Env, s: Service, e: Event, drops: set<ConnId>)
    requires Enabled(s, e) && !Stirs(env, s, e) && PartsApart(s.uploads)
    ensures Quiet(s, Next(env, s, e, drops), Winners(s, e))
  {
    match e
    case Connected(c, address) => QuietSelf(s, s.idleTimer);
    case UploadHeaders(_, _, _) => HeadQuiet(env, s, e, drops);
    case Block(c, data, taken) => DataQuiet(s, c, data, taken, drops, Next(env, s, e, drops));
    case BodyEnd(_, _) => EndQuiet(env, s, e, drops);
    case CancelRequest(_, _) => CancelQuiet(env, s, e, drops);
    case ConnTimeout(c) =>
      SocketGoneQuiet(s, c, drops);
      RespondQuiet(s, c, 408, drops);
    case ConnClosed(c) => SocketGoneQuiet(s, c, drops);
    case IdleTimerFires => IdleQuiet(s, drops);
    case StopListening => FinishQuiet(s, Stopped, drops);
    case PrepareRequest(_, _) => AnswerQuiet(env, s, e, drops);
    case OtherRequest(_, _) => AnswerQuiet(env, s, e, drops);
    case UserAccepts(_) => RefusedQuiet(s, drops);
    case UserDeclines => DeclineQuiet(s, drops);
    case UserCancels => UserCancelQuiet(s, drops);
    case AcceptTimerFires =>
      DeclineQuiet(s, drops);
      TrimmedQuiet(s, Decline(s, drops), AcceptTimeout(s, drops), {});
  }

  // --- the table of connections ------------------------------------------------------------------

  /** Who hears of a success in any event. */
  function Heard(env: Env, s: Service, e: Event): set<ConnId>
    requires Enabled(s, e)
  {
    match e
    case BodyEnd(c, _) => if c in s.uploads && Outcome(env, s, s.uploads[c]) == 200 then {c} else {}
    case UserAccepts(_) => if s.pending.Some? then {s.pending.value} else {}
    case _ => Winners(s, e)
  }

  lemma AcceptConns(s: Service, folder: Option<Text>, drops: set<ConnId>)
    requires s.pending.Some?
    ensures ConnsHeld(s.conns, Accept(s, folder, drops).conns, {s.pending.value})
  {
  }

  function HeadSeen(s: Service, c: ConnId): Service
    requires c in s.conns
  {
    s.(conns := s.conns[c := s.conns[c].(headSeen := true)])
  }

  lemma TakeSplits(s: Service, c: ConnId, row: nat, length: int, final: Text, drops: set<ConnId>)
    requires c in s.conns && row < |s.files|
    requires Naming.Reserve(s.disk.Keys, s.directory, s.files[row].fileName) == Bytes.Some(final)
    ensures var u, v := OpenUpload(s, c, row, final), TakeUpload(s, c, row, length, true, drops);
            v == u || v == Respond(u, c, 413, drops)
  {
  }

  lemma HeadAdmits(s: Service, c: ConnId, r: UploadRequest)
    requires c in s.conns
    ensures Admission(HeadSeen(s, c), c, r) == Admission(s, c, r)
  {
  }

  lemma HeadIsTake(s: Service, c: ConnId, r: UploadRequest, opens: bool, drops: set<ConnId>)
    requires c in s.conns && Admission(s, c, r) == 0
    ensures UploadHead(s, c, r, opens, drops)
            == TakeUpload(HeadSeen(s, c), c, RowOfId(s.files, r.fileId), r.length, opens, drops)
  {
    HeadAdmits(s, c, r);
  }

  /** The upload is opened, and at most refused for its length. */
  lemma HeadSplits(s: Service, c: ConnId, r: UploadRequest, row: nat, final: Text, drops: set<ConnId>, u: Service)
    requires c in s.conns && Admission(s, c, r) == 0 && row == RowOfId(s.files, r.fileId)
    requires Naming.Reserve(s.disk.Keys, s.directory, s.files[row].fileName) == Bytes.Some(final)
    requires u == OpenUpload(HeadSeen(s, c), c, row, final) && PartsApart(u.uploads)
    ensures Quiet(u, UploadHead(s, c, r, true, drops), {})
  {
    HeadIsTake(s, c, r, true, drops);
    TakeSplits(HeadSeen(s, c), c, row, r.length, final, drops);
    AfterOpening(u, c, UploadHead(s, c, r, true, drops), drops);
  }

  lemma BlockSplits(s: Service, c: ConnId, data: seq<Byte>, taken: nat, drops: set<ConnId>, t: Service)
    requires c in s.conns && s.conns[c].sink.Some? && c in s.uploads && taken <= |data|
    requires s.conns[c].received + |data| <= s.conns[c].sink.value.ceiling
    requires t == Written(s, c, data[..taken]) && PartsApart(t.uploads)
    ensures Quiet(t, UploadData(s, c, data, taken, drops), {})
  {
    AfterWriting(t, c, s.conns[c].received + |data|, UploadData(s, c, data, taken, drops), drops);
  }

  /** The body is kept, the sender told, and the session may end. */
  lemma EndSplits(env: Env, s: Service, e: Event, drops: set<ConnId>, v: Service)
    requires Enabled(s, e) && e.BodyEnd? && Stirs(env, s, e)
    requires v == Settle(s.(conns := s.conns[e.c := s.conns[e.c].(complete := true)], uploads := s.uploads - {e.c}),
                         s.uploads[e.c], e.renames)
    ensures Quiet(v, Next(env, s, e, drops), {e.c})
  {
    QuietSelf(v, v.idleTimer);
    TailQuiet(v, v, e.c, 200, drops);
  }
}
