/** Every event keeps the invariant, so every run does. */
module ReceiveSafety {
  import opened Transfers
  import opened Receive
  import opened ReceiveInvariant
  import Bytes
  import Naming

  // --- parking, accepting, declining ------------------------------------------------------

  lemma DeclineKeeps(env: Env, s: Service, drops: set<ConnId>)
    requires Inv(env, s)
    ensures Inv(env, Decline(s, drops))
  {
    if s.pending.Some? {
      var p := s.pending.value;
      var t := Reply(s, p, 403, drops);
      DoneFrame(env, s, t.conns);
      ReplyKeeps(s, p, 403, drops);
    }
  }

  /** A request that is put to the user, before its timer runs. */
  ghost predicate Parked(s: Service) {
    && s.pending.Some? && s.session == 0 && AllWaiting(s.files) && s.files != []
    && s.pending.value in s.conns && s.conns[s.pending.value].complete
    && s.uploads == map[] && s.tokens == map[] && !s.stray && !s.idleTimer && s.state.Pending?
    && LogOk(s.log, 0, s.issued)
    && (forall c :: c in s.conns ==> !Streams(s.conns[c]))
    && (forall c :: c in s.conns && !s.conns[c].headSeen ==> Untouched(s.conns[c]))
  }

  lemma LogBound(log: seq<SessionEvent>, session: Secret, low: nat, high: nat)
    requires LogOk(log, session, low) && low <= high
    ensures LogOk(log, session, high)
    decreases |log|
  {
    if log != [] && log[|log| - 1].Ended? {
      LogBound(log[..|log| - 1], log[|log| - 1].id, low, high);
    }
  }

  lemma AcceptKeeps(env: Env, s: Service, folder: Option<Text>, drops: set<ConnId>)
    requires Parked(s)
    ensures Inv(env, Accept(s, folder, drops))
  {
    var t := Accept(s, folder, drops);
    if folder.Some? {
      assert t.log[..|t.log| - 1] == s.log;
      assert LogOk(t.log, t.session, s.issued + 1);
      LogBound(t.log, t.session, s.issued + 1, t.issued);
    }
  }

  lemma InvParked(env: Env, s: Service)
    requires Inv(env, s) && s.pending.Some?
    ensures Parked(s)
  {
  }

  lemma PrepareKeeps(env: Env, s: Service, c: ConnId, p: Prepare, drops: set<ConnId>)
    requires Inv(env, s) && Enabled(s, PrepareRequest(c, p))
    ensures Inv(env, PrepareUpload(s, c, p, drops))
  {
    NotUploading(s, c);
    var conn := s.conns[c].(headSeen := true, complete := true);
    var t := s.(conns := s.conns[c := conn]);
    SeenKeeps(s, c, conn);
    DoneFrame(env, s, t.conns);
    var status := Verdict(s, p);
    if status != 0 {
      ReplyKeeps(t, c, status, drops);
      DoneFrame(env, t, Reply(t, c, status, drops).conns);
    } else {
      var parked := t.(files := EntriesOf(p.files), state := State.Pending, pending := Bytes.Some(c));
      assert Parked(parked);
      if p.quickSave {
        AcceptKeeps(env, parked, p.folder, drops);
      }
    }
  }

  // --- opening an upload --------------------------------------------------------------------

  lemma OpenUploadsOk(s: Service, c: ConnId, row: nat, final: Text)
    requires UploadsOk(s) && Expects(s, c) && c !in s.uploads && s.conns[c].headSeen && s.conns[c].received == 0
    requires row < |s.files| && final + Naming.PART !in s.disk
    requires s.pending != Bytes.Some(c)
    ensures UploadsOk(OpenUpload(s, c, row, final))
  {
    var t := OpenUpload(s, c, row, final);
    forall d | d in t.uploads
      ensures UploadOk(t, d)
    {
      if d != c { assert UploadOk(s, d); }
    }
    forall d, e | d in t.uploads && e in t.uploads && d != e
      ensures t.uploads[d].part != t.uploads[e].part
    {
      if d != c { assert UploadOk(s, d); }
      if e != c { assert UploadOk(s, e); }
    }
  }

  lemma OpenDoneOk(env: Env, s: Service, c: ConnId, row: nat, final: Text)
    requires DoneOk(env, s) && c in s.conns && c !in s.uploads
    requires row < |s.files| && final + Naming.PART !in s.disk
    ensures DoneOk(env, OpenUpload(s, c, row, final))
  {
    var t := OpenUpload(s, c, row, final);
    var part := final + Naming.PART;
    forall i | 0 <= i < |t.files| && t.files[i].status.FileDone?
      ensures Exact(env, t.files[i], t.disk) && t.files[i].localPath !in PartsOf(t.uploads)
    {
      assert t.files[i] == s.files[i];
      assert PartsOf(t.uploads) <= PartsOf(s.uploads) + {part};
    }
  }

  lemma FailRowKeeps(env: Env, s: Service, c: ConnId, row: nat, drops: set<ConnId>)
    requires Inv(env, s) && c !in s.uploads && s.session != 0
    ensures Inv(env, FailRow(s, c, row, drops))
  {
    var t := s.(files := WithStatus(s.files, row, FileFailed));
    forall d | d in t.uploads
      ensures UploadOk(t, d)
    {
      assert UploadOk(s, d);
    }
    ReplyKeeps(t, c, 500, drops);
    forall i | 0 <= i < |t.files| && t.files[i].status.FileDone?
      ensures Exact(env, t.files[i], t.disk) && t.files[i].localPath !in PartsOf(t.uploads)
    {
      assert t.files[i] == s.files[i];
    }
  }

  lemma OpenKeeps(env: Env, s: Service, c: ConnId, row: nat, final: Text)
    requires Inv(env, s) && s.session != 0 && row < |s.files| && final + Naming.PART !in s.disk
    requires Expects(s, c) && c !in s.uploads && s.conns[c].headSeen && s.conns[c].received == 0
    ensures Inv(env, OpenUpload(s, c, row, final))
  {
    OpenUploadsOk(s, c, row, final);
    OpenDoneOk(env, s, c, row, final);
  }

  lemma TakeUploadKeeps(env: Env, s: Service, c: ConnId, row: nat, length: int, opens: bool, drops: set<ConnId>)
    requires Inv(env, s) && s.session != 0
    requires Expects(s, c) && c !in s.uploads && s.conns[c].headSeen && s.conns[c].received == 0 && row < |s.files|
    ensures Inv(env, TakeUpload(s, c, row, length, opens, drops))
  {
    var reserved := Naming.Reserve(s.disk.Keys, s.directory, s.files[row].fileName);
    if reserved.None? || !opens {
      FailRowKeeps(env, s, c, row, drops);
    } else {
      Naming.ReservedIsFresh(s.disk.Keys, s.directory, s.files[row].fileName);
      OpenKeeps(env, s, c, row, reserved.value);
      RespondKeeps(env, OpenUpload(s, c, row, reserved.value), c, 413, drops);
    }
  }

  lemma UploadHeadKeeps(env: Env, s: Service, c: ConnId, r: UploadRequest, opens: bool, drops: set<ConnId>)
    requires Inv(env, s) && Enabled(s, UploadHeaders(c, r, opens))
    ensures Inv(env, UploadHead(s, c, r, opens, drops))
  {
    NotUploading(s, c);
    var conn := s.conns[c].(headSeen := true);
    var t := s.(conns := s.conns[c := conn]);
    assert Untouched(s.conns[c]);
    SeenKeeps(s, c, conn);
    DoneFrame(env, s, t.conns);
    var status := Admission(t, c, r);
    if status != 0 {
      ReplyKeeps(t, c, status, drops);
      DoneFrame(env, t, Reply(t, c, status, drops).conns);
    } else {
      TakeUploadKeeps(env, t, c, RowOfId(t.files, r.fileId), r.length, opens, drops);
    }
  }

  // --- bytes ------------------------------------------------------------------------------------

  lemma WrittenUploadsOk(s: Service, c: ConnId, data: seq<Byte>, total: nat)
    requires UploadsOk(s) && Expects(s, c) && s.conns[c].sink.Some? && c in s.uploads
    requires total == s.conns[c].received + |data| <= s.conns[c].sink.value.ceiling
    ensures UploadsOk(Counted(Written(s, c, data), c, total))
  {
    var t := Counted(Written(s, c, data), c, total);
    assert UploadOk(s, c);
    forall d | d in t.uploads
      ensures UploadOk(t, d)
    {
      assert UploadOk(s, d);
    }
  }

  lemma WrittenDoneOk(env: Env, s: Service, c: ConnId, data: seq<Byte>, total: nat)
    requires DoneOk(env, s) && c in s.uploads && c in s.conns && s.conns[c].sink.Some?
    ensures DoneOk(env, Counted(Written(s, c, data), c, total))
  {
    var t := Written(s, c, data);
    PartsMember(s.uploads, c);
    assert PartsOf(t.uploads) <= PartsOf(s.uploads);
    forall i | 0 <= i < |t.files| && t.files[i].status.FileDone?
      ensures Exact(env, t.files[i], t.disk) && t.files[i].localPath !in PartsOf(t.uploads)
    {
      assert t.files[i] == s.files[i];
    }
  }

  /** Progress moves a count, not a size, a status or a path. */
  lemma ProgressUploadsOk(s: Service, row: nat, count: nat)
    requires UploadsOk(s)
    ensures UploadsOk(s.(files := WithTransferred(s.files, row, count), idleTimer := true))
  {
    var t := s.(files := WithTransferred(s.files, row, count), idleTimer := true);
    forall d | d in t.uploads
      ensures UploadOk(t, d)
    {
      assert UploadOk(s, d);
    }
  }

  lemma ProgressDoneOk(env: Env, s: Service, row: nat, count: nat)
    requires DoneOk(env, s)
    ensures DoneOk(env, s.(files := WithTransferred(s.files, row, count), idleTimer := true))
  {
    var t := s.(files := WithTransferred(s.files, row, count), idleTimer := true);
    forall i | 0 <= i < |t.files| && t.files[i].status.FileDone?
      ensures Exact(env, t.files[i], t.disk) && t.files[i].localPath !in PartsOf(t.uploads)
    {
      assert t.files[i] == s.files[i].(transferred := t.files[i].transferred);
    }
  }

  lemma FullBlockUploadsOk(s: Service, u: Service, c: ConnId, data: seq<Byte>, total: nat)
    requires UploadsOk(s) && Expects(s, c) && s.conns[c].sink.Some? && c in s.uploads
    requires total == s.conns[c].received + |data| <= s.conns[c].sink.value.ceiling
    requires u == Progress(Written(s, c, data), c, total)
    ensures UploadsOk(u)
  {
    var t := Counted(Written(s, c, data), c, total);
    WrittenUploadsOk(s, c, data, total);
    assert c in t.uploads;
    ProgressUploadsOk(t, t.uploads[c].row, total);
  }

  lemma FullBlockDoneOk(env: Env, s: Service, u: Service, c: ConnId, data: seq<Byte>, total: nat)
    requires DoneOk(env, s) && c in s.conns && s.conns[c].sink.Some? && c in s.uploads
    requires u == Progress(Written(s, c, data), c, total)
    ensures DoneOk(env, u)
  {
    var t := Counted(Written(s, c, data), c, total);
    WrittenDoneOk(env, s, c, data, total);
    assert c in t.uploads;
    ProgressDoneOk(env, t, t.uploads[c].row, total);
  }

  lemma FullBlockSessionOk(s: Service, u: Service, c: ConnId, data: seq<Byte>, total: nat)
    requires SessionOk(s) && c in s.conns && s.conns[c].sink.Some? && c in s.uploads
    requires u == Progress(Written(s, c, data), c, total)
    ensures SessionOk(u)
  {
  }

  /** An answer makes up for the count that a short write leaves behind. */
  lemma ShortBlockKeeps(env: Env, s: Service, t: Service, c: ConnId, data: seq<Byte>, drops: set<ConnId>)
    requires Inv(env, s) && Expects(s, c) && s.conns[c].sink.Some? && c in s.uploads && s.conns[c].headSeen
    requires s.conns[c].received + |data| <= s.conns[c].sink.value.ceiling
    requires t == Written(s, c, data)
    ensures Inv(env, Respond(t, c, 500, drops))
  {
    var total := s.conns[c].received + |data|;
    var counted := Counted(t, c, total);
    WrittenUploadsOk(s, c, data, total);
    WrittenDoneOk(env, s, c, data, total);
    assert SessionOk(counted);
    assert t.conns == counted.conns[c := counted.conns[c].(received := t.conns[c].received)];
    RespondAfter(env, counted, t, c, 500, drops);
  }

  lemma UploadDataKeeps(env: Env, s: Service, c: ConnId, data: seq<Byte>, taken: nat, drops: set<ConnId>)
    requires Inv(env, s) && Enabled(s, Block(c, data, taken))
    ensures Inv(env, UploadData(s, c, data, taken, drops))
  {
    assert Streams(s.conns[c]) && c in s.uploads;
    assert UploadOk(s, c);
    var total := s.conns[c].received + |data|;
    if total > s.conns[c].sink.value.ceiling {
      RespondKeeps(env, s, c, 413, drops);
    } else if taken < |data| {
      ShortBlockKeeps(env, s, Written(s, c, data[..taken]), c, data[..taken], drops);
    } else {
      var u := UploadData(s, c, data, taken, drops);
      FullBlockUploadsOk(s, u, c, data[..taken], total);
      FullBlockDoneOk(env, s, u, c, data[..taken], total);
      FullBlockSessionOk(s, u, c, data[..taken], total);
    }
  }

  // --- the end of a body --------------------------------------------------------------------------

  /** What is left when an upload leaves the table with its file still on disk. */
  lemma UploadLeaves(s: Service, c: ConnId, conn: Conn, renames: bool)
    requires UploadsOk(s) && c in s.uploads && !Streams(conn) && conn.headSeen
    requires s.pending == Bytes.Some(c) ==> conn.complete
    ensures var t := s.(conns := s.conns[c := conn], uploads := s.uploads - {c});
            s.uploads[c].row < |s.files| && s.uploads[c].part in s.disk && UploadsOk(Settle(t, s.uploads[c], renames))
  {
    assert UploadOk(s, c);
    var u := s.uploads[c];
    var t := Settle(s.(conns := s.conns[c := conn], uploads := s.uploads - {c}), u, renames);
    forall d | d in t.uploads
      ensures UploadOk(t, d)
    {
      assert UploadOk(s, d);
      assert t.files[s.uploads[d].row].size == s.files[s.uploads[d].row].size;
    }
  }

  lemma SettleDoneOk(env: Env, s: Service, c: ConnId, renames: bool)
    requires UploadsOk(s) && DoneOk(env, s) && c in s.uploads
    requires s.uploads[c].row < |s.files| && Outcome(env, s, s.uploads[c]) == 200 && s.uploads[c].part in s.disk
    ensures DoneOk(env, Settle(s.(uploads := s.uploads - {c}), s.uploads[c], renames))
  {
    assert UploadOk(s, c);
    var u := s.uploads[c];
    var t := Settle(s.(uploads := s.uploads - {c}), u, renames);
    PartsMember(s.uploads, c);
    assert PartsOf(t.uploads) <= PartsOf(s.uploads);
    assert u.part !in PartsOf(t.uploads);
    forall i | 0 <= i < |t.files| && t.files[i].status.FileDone?
      ensures Exact(env, t.files[i], t.disk) && t.files[i].localPath !in PartsOf(t.uploads)
    {
      if i != u.row {
        assert t.files[i] == s.files[i];
      } else {
        SettledExact(env, s, c, t, renames);
      }
    }
  }

  lemma PartsExist(s: Service)
    requires UploadsOk(s)
    ensures PartsOf(s.uploads) <= s.disk.Keys
  {
    forall p | p in PartsOf(s.uploads)
      ensures p in s.disk
    {
      var c :| c in s.uploads && s.uploads[c].part == p;
      assert UploadOk(s, c);
    }
  }

  lemma SettledExact(env: Env, s: Service, c: ConnId, t: Service, renames: bool)
    requires UploadsOk(s) && c in s.uploads
    requires s.uploads[c].row < |s.files| && Outcome(env, s, s.uploads[c]) == 200 && s.uploads[c].part in s.disk
    requires t == Settle(s.(uploads := s.uploads - {c}), s.uploads[c], renames)
    ensures var f := t.files[s.uploads[c].row];
            f.status.FileDone? && Exact(env, f, t.disk) && f.localPath !in PartsOf(t.uploads)
    ensures t.disk[t.files[s.uploads[c].row].localPath] == s.disk[s.uploads[c].part]
  {
    assert UploadOk(s, c);
    PartsExist(s);
    assert PartsOf(t.uploads) <= PartsOf(s.uploads);
    assert s.uploads[c].part !in PartsOf(t.uploads);
  }

  lemma EndTail(env: Env, s: Service, c: ConnId, status: int, drops: set<ConnId>)
    requires Inv(env, s) && c !in s.uploads && s.session != 0
    ensures Inv(env, FinishIfSettled(Reply(s, c, status, drops).(idleTimer := true), drops))
  {
    var t := Reply(s, c, status, drops);
    ReplyKeeps(s, c, status, drops);
    DoneFrame(env, s, t.conns);
    assert s.idleTimer && t.(idleTimer := true) == t;
    FinishKeeps(env, t, Over, drops);
  }

  lemma UploadEndKeeps(env: Env, s: Service, c: ConnId, renames: bool, drops: set<ConnId>)
    requires Inv(env, s) && Enabled(s, BodyEnd(c, renames))
    ensures Inv(env, UploadEnd(env, s, c, renames, drops))
  {
    var conn := s.conns[c].(complete := true);
    var t := s.(conns := s.conns[c := conn]);
    DoneFrame(env, s, t.conns);
    if c !in s.uploads {
      SeenKeeps(s, c, conn);
      ReplyKeeps(t, c, 400, drops);
      DoneFrame(env, t, Reply(t, c, 400, drops).conns);
    } else {
      assert UploadOk(s, c);
      ConcludeKeeps(env, s, c, conn, renames);
      EndTail(env, Conclude(env, t, c, renames), c, Outcome(env, t, t.uploads[c]), drops);
    }
  }

  lemma ConcludeKeeps(env: Env, s: Service, c: ConnId, conn: Conn, renames: bool)
    requires Inv(env, s) && c in s.uploads && !Streams(conn) && conn.headSeen
    ensures var t := s.(conns := s.conns[c := conn]);
            && s.uploads[c].row < |s.files| && s.uploads[c].part in s.disk
            && Inv(env, Conclude(env, t, c, renames))
            && c !in Conclude(env, t, c, renames).uploads && Conclude(env, t, c, renames).session == s.session != 0
  {
    assert UploadOk(s, c);
    var t := s.(conns := s.conns[c := conn]);
    var u := s.uploads[c];
    var v := Conclude(env, t, c, renames);
    if Outcome(env, s, u) == 200 {
      UploadLeaves(s, c, conn, renames);
      SettleDoneOk(env, s, c, renames);
      assert v == Settle(s.(uploads := s.uploads - {c}), u, renames).(conns := v.conns);
      DoneFrame(env, Settle(s.(uploads := s.uploads - {c}), u, renames), v.conns);
    } else {
      DropUploadsOk(s, c, conn);
      DropDoneOk(env, s, c);
      assert v == DropUpload(s, c).(conns := v.conns);
      DoneFrame(env, DropUpload(s, c), v.conns);
    }
  }

  // --- the rest -------------------------------------------------------------------------------------

  lemma PeerCancelKeeps(env: Env, s: Service, c: ConnId, session: Secret, drops: set<ConnId>)
    requires Inv(env, s) && Enabled(s, CancelRequest(c, session))
    ensures Inv(env, PeerCancel(s, c, session, drops))
  {
    NotUploading(s, c);
    var conn := s.conns[c].(headSeen := true, complete := true);
    var t := s.(conns := s.conns[c := conn]);
    SeenKeeps(s, c, conn);
    DoneFrame(env, s, t.conns);
    var u := Reply(t, c, 200, drops);
    ReplyKeeps(t, c, 200, drops);
    DoneFrame(env, t, u.conns);
    FinishKeeps(env, u, Stopped, drops);
  }

  lemma OtherKeeps(env: Env, s: Service, c: ConnId, status: int, drops: set<ConnId>)
    requires Inv(env, s) && Enabled(s, OtherRequest(c, status))
    ensures Inv(env, Next(env, s, OtherRequest(c, status), drops))
  {
    NotUploading(s, c);
    var conn := s.conns[c].(headSeen := true, complete := true);
    var t := s.(conns := s.conns[c := conn]);
    SeenKeeps(s, c, conn);
    DoneFrame(env, s, t.conns);
    ReplyKeeps(t, c, status, drops);
    DoneFrame(env, t, Reply(t, c, status, drops).conns);
  }

  lemma ConnectedKeeps(env: Env, s: Service, c: ConnId, address: Text)
    requires Inv(env, s) && c !in s.conns
    ensures Inv(env, s.(conns := s.conns[c := Conn(address, true, false, false, false, Bytes.None, 0, [])]))
  {
    assert c in s.uploads ==> UploadOk(s, c);
    var conns := s.conns[c := Conn(address, true, false, false, false, Bytes.None, 0, [])];
    ConnsKeep(s, conns);
    DoneFrame(env, s, conns);
  }

  lemma SessionIdleKeeps(env: Env, s: Service, drops: set<ConnId>)
    requires Inv(env, s) && s.idleTimer
    ensures Inv(env, SessionIdle(s, drops))
  {
    var t := s.(idleTimer := false);
    FinishSessionOk(t, Over, drops);
    FinishUploadsOk(t, Over, drops);
    FinishDoneOk(env, t, Over, drops);
  }

  lemma NextKeeps(env: Env, s: Service, e: Event, drops: set<ConnId>)
    requires Inv(env, s) && Enabled(s, e)
    ensures Inv(env, Next(env, s, e, drops))
  {
    match e
    case Connected(c, address) => ConnectedKeeps(env, s, c, address);
    case PrepareRequest(c, p) => PrepareKeeps(env, s, c, p, drops);
    case UploadHeaders(c, r, opens) => UploadHeadKeeps(env, s, c, r, opens, drops);
    case Block(c, data, taken) => UploadDataKeeps(env, s, c, data, taken, drops);
    case BodyEnd(c, renames) => UploadEndKeeps(env, s, c, renames, drops);
    case CancelRequest(c, session) => PeerCancelKeeps(env, s, c, session, drops);
    case OtherRequest(c, status) => OtherKeeps(env, s, c, status, drops);
    case ConnTimeout(c) =>
      SocketGoneKeeps(env, s, c, drops);
      RespondKeeps(env, s, c, 408, drops);
    case ConnClosed(c) => SocketGoneKeeps(env, s, c, drops);
    case UserAccepts(folder) =>
      if s.pending.Some? {
        InvParked(env, s);
        AcceptKeeps(env, s, folder, drops);
      }
    case UserDeclines => DeclineKeeps(env, s, drops);
    case UserCancels =>
      DeclineKeeps(env, s, drops);
      FinishKeeps(env, s, Stopped, drops);
    case AcceptTimerFires => DeclineKeeps(env, s, drops);
    case IdleTimerFires => SessionIdleKeeps(env, s, drops);
    case StopListening => FinishKeeps(env, s, Stopped, drops);
  }

  // --- runs -------------------------------------------------------------------------------------------

  /** One event of a run, and the sockets that would go down during it. An event that cannot happen
      is passed over. */
  type Turn = (Event, set<ConnId>)

  function Take(env: Env, s: Service, turn: Turn): Service {
    if Enabled(s, turn.0) then Next(env, s, turn.0, turn.1) else s
  }

  function RunAll(env: Env, s: Service, turns: seq<Turn>): Service
    decreases |turns|
  {
    if turns == [] then s else RunAll(env, Take(env, s, turns[0]), turns[1..])
  }

  /** The invariant holds after any sequence of events, with any of the sockets going down inside
      any of the answers. */
  lemma {:induction false} RunKeeps(env: Env, s: Service, turns: seq<Turn>)
    requires Inv(env, s)
    ensures Inv(env, RunAll(env, s, turns))
    decreases |turns|
  {
    if turns != [] {
      if Enabled(s, turns[0].0) {
        NextKeeps(env, s, turns[0].0, turns[0].1);
      }
      RunKeeps(env, Take(env, s, turns[0]), turns[1..]);
    }
  }

  /** What that means for a service that starts over any folder. */
  lemma EveryRun(env: Env, disk: map<Text, seq<Byte>>, turns: seq<Turn>)
    ensures var s := RunAll(env, INITIAL.(disk := disk), turns);
            // at most one of a parked request and a session, each with its own timer and state
            && !(s.pending.Some? && s.session != 0)
            && (s.acceptTimer <==> s.pending.Some?) && (s.state.Pending? <==> s.pending.Some?)
            && (s.idleTimer <==> s.session != 0) && (s.state.Active? <==> s.session != 0)
            && (s.session == 0 ==> s.uploads == map[] && s.tokens == map[])
            // no byte ever went to a file that was not open, and whoever can still write has one
            && !s.stray
            && (forall c :: c in s.conns && Streams(s.conns[c]) ==>
                  c in s.uploads && s.conns[c].sink.value.part == s.uploads[c].part && s.uploads[c].part in s.disk)
            && PartsApart(s.uploads)
            // no part file is longer than what was agreed to, and no finished one differs from it
            && (forall c :: c in s.uploads ==>
                  s.uploads[c].row < |s.files| && s.uploads[c].part in s.disk
                  && |s.disk[s.uploads[c].part]| <= s.files[s.uploads[c].row].size)
            && (forall i :: 0 <= i < |s.files| && s.files[i].status.FileDone? ==> Exact(env, s.files[i], s.disk))
  {
    InitialInv(env, disk);
    RunKeeps(env, INITIAL.(disk := disk), turns);
    var s := RunAll(env, INITIAL.(disk := disk), turns);
    assert forall c :: c in s.uploads ==> UploadOk(s, c);
  }
}
