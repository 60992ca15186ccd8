/** What holds between any two events of the receiving side. */
module ReceiveInvariant {
  import opened Transfers
  import opened Receive
  import Bytes
  import Naming

  // --- the session ------------------------------------------------------------------

  /** Sessions start and end in turn, each under a secret larger than all before it. `session` is the
      one still open, 0 for none. */
  ghost predicate LogOk(log: seq<SessionEvent>, session: Secret, bound: nat)
    decreases |log|
  {
    if log == [] then session == 0
    else
      var earlier := log[..|log| - 1];
      match log[|log| - 1]
      case Started(id) => session == id && 0 < id <= bound && LogOk(earlier, 0, id - 1)
      case Ended(id) => session == 0 && id != 0 && LogOk(earlier, id, bound)
  }

  ghost predicate AllWaiting(files: seq<FileEntry>) {
    forall i :: 0 <= i < |files| ==> files[i].status == FileWaiting
  }

  ghost predicate SessionOk(s: Service) {
    && (s.pending.Some? ==> s.session == 0 && AllWaiting(s.files) && s.files != [])
    && (s.acceptTimer <==> s.pending.Some?)
    && (s.idleTimer <==> s.session != 0)
    && (s.state.Pending? <==> s.pending.Some?)
    && (s.state.Active? <==> s.session != 0)
    && (s.session == 0 ==> s.uploads == map[] && s.tokens == map[])
    && s.session <= s.issued
    && LogOk(s.log, s.session, s.issued)
  }

  // --- connections and uploads --------------------------------------------------------

  /** A connection that could still write to a sink. */
  predicate Streams(c: Conn) {
    !c.answered && !c.complete && c.sink.Some?
  }

  predicate Untouched(c: Conn) {
    c.sink.None? && c.received == 0 && !c.complete
  }

  ghost predicate UploadOk(s: Service, c: ConnId)
    requires c in s.uploads
  {
    var u := s.uploads[c];
    && c in s.conns && s.conns[c].open && s.conns[c].headSeen && !s.conns[c].complete
    && u.row < |s.files|
    && s.conns[c].sink == Bytes.Some(Sink(u.part, s.files[u.row].size))
    && u.part == u.final + Naming.PART
    && u.part in s.disk
    && u.hashed == s.disk[u.part]
    && |s.disk[u.part]| <= s.files[u.row].size
    && (!s.conns[c].answered ==> s.conns[c].received == |s.disk[u.part]|)
  }

  ghost predicate PartsApart(uploads: map<ConnId, Upload>) {
    forall c, d {:trigger uploads[c].part, uploads[d].part} ::
      c in uploads && d in uploads && c != d ==> uploads[c].part != uploads[d].part
  }

  ghost predicate UploadsOk(s: Service) {
    && !s.stray
    && (forall c :: c in s.uploads ==> UploadOk(s, c))
    && PartsApart(s.uploads)
    && (forall c :: c in s.conns && Streams(s.conns[c]) ==>
          c in s.uploads && s.conns[c].sink.value.part == s.uploads[c].part)
    && (forall c :: c in s.conns && !s.conns[c].headSeen ==> Untouched(s.conns[c]))
    && (s.pending.Some? ==> s.pending.value in s.conns && s.conns[s.pending.value].complete)
  }

  // --- files that are kept --------------------------------------------------------------

  /** The file a finished row points at is exactly what was announced. */
  predicate Exact(env: Env, f: FileEntry, disk: map<Text, seq<Byte>>) {
    f.localPath in disk && |disk[f.localPath]| == f.size && env.accepts(disk[f.localPath], f.sha256)
  }

  ghost predicate DoneOk(env: Env, s: Service) {
    forall i :: 0 <= i < |s.files| && s.files[i].status.FileDone? ==>
      Exact(env, s.files[i], s.disk) && s.files[i].localPath !in PartsOf(s.uploads)
  }

  ghost predicate Inv(env: Env, s: Service) {
    SessionOk(s) && UploadsOk(s) && DoneOk(env, s)
  }

  const INITIAL := Service(map[], Bytes.None, 0, [], [], map[], map[], false, false, [], State.Idle, map[], 0, false, [])

  /** The service as it starts, over whatever the folder holds. */
  lemma InitialInv(env: Env, disk: map<Text, seq<Byte>>)
    ensures Inv(env, INITIAL.(disk := disk))
  {
  }

  lemma NotUploading(s: Service, c: ConnId)
    requires UploadsOk(s) && c in s.conns && !s.conns[c].headSeen
    ensures c !in s.uploads
  {
    assert c in s.uploads ==> UploadOk(s, c);
  }

  // --- answers ---------------------------------------------------------------------------

  /** Nothing about `d` lets it write to a sink it could not write to as `c`. */
  predicate Quieter(c: Conn, d: Conn) {
    && (Streams(d) ==> Streams(c) && d.sink == c.sink)
    && (!d.headSeen ==> !c.headSeen && (Untouched(c) ==> Untouched(d)))
  }

  predicate SameUpload(c: Conn, d: Conn) {
    && d.open == c.open && d.headSeen == c.headSeen && d.complete == c.complete && d.sink == c.sink
    && (d.answered || (d.received == c.received && !c.answered))
  }

  /** Connections may be answered and closed freely, as long as those with an upload stay open. */
  lemma ConnsKeep(s: Service, conns: map<ConnId, Conn>)
    requires UploadsOk(s) && s.conns.Keys <= conns.Keys
    requires forall c :: c in conns && c in s.conns ==> Quieter(s.conns[c], conns[c])
    requires forall c :: c in conns && c !in s.conns ==> Untouched(conns[c])
    requires forall c :: c in s.uploads ==> SameUpload(s.conns[c], conns[c])
    requires s.pending.Some? ==> conns[s.pending.value].complete
    ensures UploadsOk(s.(conns := conns))
  {
    var t := s.(conns := conns);
    forall c | c in t.uploads
      ensures UploadOk(t, c)
    {
      assert UploadOk(s, c);
    }
  }

  lemma ReplyKeeps(s: Service, c: ConnId, status: int, drops: set<ConnId>)
    requires UploadsOk(s) && c !in s.uploads
    ensures UploadsOk(Reply(s, c, status, drops))
  {
    ConnsKeep(s, AnswerAll(s.conns, {c}, status, drops));
  }

  /** The table of connections after one of them has been read a little further. */
  lemma SeenKeeps(s: Service, c: ConnId, conn: Conn)
    requires UploadsOk(s) && c in s.conns && c !in s.uploads && Quieter(s.conns[c], conn)
    requires s.pending == Bytes.Some(c) ==> conn.complete
    ensures UploadsOk(s.(conns := s.conns[c := conn]))
  {
    ConnsKeep(s, s.conns[c := conn]);
  }

  // --- ending ----------------------------------------------------------------------------

  lemma FinishSessionOk(s: Service, how: Ending, drops: set<ConnId>)
    requires s.pending.Some? ==> s.session == 0
    requires s.session == 0 ==> s.uploads == map[] && s.tokens == map[]
    requires s.session == 0 && s.pending.None? ==> SessionOk(s)
    requires s.session <= s.issued && LogOk(s.log, s.session, s.issued)
    ensures SessionOk(FinishSession(s, how, drops))
  {
    var t := FinishSession(s, how, drops);
    if s.session != 0 {
      assert t.log[..|t.log| - 1] == s.log;
    }
  }

  lemma FinishQuiets(s: Service, how: Ending, drops: set<ConnId>, c: ConnId)
    requires c in s.conns && (s.session != 0 || s.pending.Some?)
    ensures var t := FinishSession(s, how, drops);
            c in t.conns && Quieter(s.conns[c], t.conns[c]) && (c in s.uploads ==> t.conns[c].answered)
  {
  }

  lemma FinishUploadsOk(s: Service, how: Ending, drops: set<ConnId>)
    requires UploadsOk(s)
    ensures UploadsOk(FinishSession(s, how, drops))
  {
    if s.session != 0 || s.pending.Some? {
      var t := FinishSession(s, how, drops);
      assert t.conns.Keys == s.conns.Keys && t.uploads == map[] && t.pending.None?;
      forall c | c in s.conns
        ensures !Streams(t.conns[c]) && (!t.conns[c].headSeen ==> Untouched(t.conns[c]))
      {
        FinishQuiets(s, how, drops, c);
        assert Streams(s.conns[c]) ==> c in s.uploads;
      }
    }
  }

  lemma PartsMember(uploads: map<ConnId, Upload>, c: ConnId)
    requires c in uploads
    ensures uploads[c].part in PartsOf(uploads)
  {
  }

  lemma FinishDoneOk(env: Env, s: Service, how: Ending, drops: set<ConnId>)
    requires DoneOk(env, s)
    ensures DoneOk(env, FinishSession(s, how, drops))
  {
    var t := FinishSession(s, how, drops);
    forall i | 0 <= i < |t.files| && t.files[i].status.FileDone?
      ensures Exact(env, t.files[i], t.disk) && t.files[i].localPath !in PartsOf(t.uploads)
    {
      assert s.files[i].status.FileDone? && t.files[i] == s.files[i];
    }
  }

  /** However it ends, a session leaves no upload, no token, no timer and no unfinished row. */
  lemma FinishLeavesNothing(s: Service, how: Ending, drops: set<ConnId>)
    requires s.session != 0
    ensures var t := FinishSession(s, how, drops);
            && t.session == 0 && t.pending.None? && t.uploads == map[] && t.tokens == map[]
            && !t.idleTimer && !t.acceptTimer && AllSettled(t.files)
            && t.log == s.log + [Ended(s.session)]
            && (forall c :: c in s.uploads && c in s.conns ==> t.conns[c].answered && s.uploads[c].part !in t.disk)
  {
    var t := FinishSession(s, how, drops);
    forall c | c in s.uploads && c in s.conns
      ensures t.conns[c].answered && s.uploads[c].part !in t.disk
    {
      PartsMember(s.uploads, c);
    }
  }

  /** A finished row stays finished through the end of its session exactly when no other connection
      is in the middle of sending the same file again. */
  lemma FinishKeepsDone(s: Service, how: Ending, drops: set<ConnId>, row: nat)
    requires s.session != 0 && row < |s.files| && s.files[row].status.FileDone?
    ensures FinishSession(s, how, drops).files[row].status.FileDone? <==> row !in RowsOf(s.uploads)
  {
    assert FinishSession(s, how, drops).files == CutOffAll(s.files, RowsOf(s.uploads));
  }

  lemma FinishKeeps(env: Env, s: Service, how: Ending, drops: set<ConnId>)
    requires Inv(env, s)
    ensures Inv(env, FinishSession(s, how, drops))
  {
    FinishSessionOk(s, how, drops);
    FinishUploadsOk(s, how, drops);
    FinishDoneOk(env, s, how, drops);
  }

  // --- an upload that is dropped ----------------------------------------------------------

  lemma DropUploadsOk(s: Service, c: ConnId, conn: Conn)
    requires UploadsOk(s) && c in s.uploads && !Streams(conn) && conn.headSeen
    requires s.pending == Bytes.Some(c) ==> conn.complete
    ensures UploadsOk(DropUpload(s.(conns := s.conns[c := conn]), c))
  {
    var t := DropUpload(s.(conns := s.conns[c := conn]), c);
    forall d | d in t.uploads
      ensures UploadOk(t, d)
    {
      DropOther(s, c, conn, d);
    }
  }

  lemma DropOther(s: Service, c: ConnId, conn: Conn, d: ConnId)
    requires c in s.uploads && d in s.uploads && d != c && UploadOk(s, d)
    requires s.uploads[c].part != s.uploads[d].part
    ensures UploadOk(DropUpload(s.(conns := s.conns[c := conn]), c), d)
  {
  }

  lemma DropDoneOk(env: Env, s: Service, c: ConnId)
    requires UploadsOk(s) && DoneOk(env, s) && c in s.uploads
    ensures DoneOk(env, DropUpload(s, c))
  {
    var t := DropUpload(s, c);
    assert UploadOk(s, c);
    PartsMember(s.uploads, c);
    forall i | 0 <= i < |t.files| && t.files[i].status.FileDone?
      ensures Exact(env, t.files[i], t.disk) && t.files[i].localPath !in PartsOf(t.uploads)
    {
      assert t.files[i] == s.files[i];
      assert PartsOf(t.uploads) <= PartsOf(s.uploads);
    }
  }

  /** The rows and the disk say what they said when only connections have changed. */
  lemma DoneFrame(env: Env, s: Service, conns: map<ConnId, Conn>)
    requires DoneOk(env, s)
    ensures DoneOk(env, s.(conns := conns))
  {
  }

  lemma DropKeeps(env: Env, s: Service, c: ConnId, conn: Conn, drops: set<ConnId>)
    requires Inv(env, s) && c in s.uploads && !Streams(conn) && conn.headSeen
    ensures Inv(env, FinishIfSettled(DropUpload(s.(conns := s.conns[c := conn]), c), drops))
  {
    var t := s.(conns := s.conns[c := conn]);
    DropUploadsOk(s, c, conn);
    DropDoneOk(env, s, c);
    assert DropUpload(t, c) == DropUpload(s, c).(conns := t.conns);
    DoneFrame(env, DropUpload(s, c), t.conns);
    assert SessionOk(DropUpload(t, c));
    FinishKeeps(env, DropUpload(t, c), Over, drops);
  }

  lemma PendingGoneKeeps(env: Env, s: Service)
    requires Inv(env, s)
    ensures Inv(env, PendingGone(s))
  {
  }

  // --- sockets and answers that may take them down ------------------------------------------

  /** The slots run on a connection that has just been answered and closed. */
  lemma ClosedKeeps(env: Env, s: Service, c: ConnId, conn: Conn, drops: set<ConnId>)
    requires Inv(env, s) && c in s.conns && !Streams(conn)
    requires conn.headSeen || (!s.conns[c].headSeen && Untouched(conn))
    requires s.conns[c].complete ==> conn.complete
    ensures Inv(env, SlotsOnClosed(s.(conns := s.conns[c := conn]), c, drops))
  {
    var t := s.(conns := s.conns[c := conn]);
    assert c in s.uploads ==> UploadOk(s, c);
    DoneFrame(env, s, t.conns);
    if s.pending == Bytes.Some(c) {
      SeenKeeps(s, c, conn);
      PendingGoneKeeps(env, t);
    } else if c in s.uploads {
      DropKeeps(env, s, c, conn, drops);
    } else {
      SeenKeeps(s, c, conn);
    }
  }

  lemma SocketGoneKeeps(env: Env, s: Service, c: ConnId, drops: set<ConnId>)
    requires Inv(env, s)
    ensures Inv(env, SocketGone(s, c, drops))
  {
    if c in s.conns && s.conns[c].open {
      ClosedKeeps(env, s, c, s.conns[c].(open := false, answered := true), drops);
    }
  }

  /** An answer makes up for a count of received bytes that a short write left behind. */
  lemma RespondAfter(env: Env, base: Service, s: Service, c: ConnId, status: int, drops: set<ConnId>)
    requires Inv(env, base) && c in base.conns && !base.conns[c].answered
    requires s.conns.Keys == base.conns.Keys
    requires s == base.(conns := base.conns[c := base.conns[c].(received := s.conns[c].received)])
    requires s.conns[c].headSeen || s == base
    ensures Inv(env, Respond(s, c, status, drops))
  {
    var conn := Mark(s.conns[c], status, c in drops);
    var t := Reply(s, c, status, drops);
    assert t == base.(conns := base.conns[c := conn]);
    if s.conns[c].open && c in drops {
      assert !s.conns[c].headSeen ==> Untouched(base.conns[c]);
      ClosedKeeps(env, base, c, conn, drops);
    } else {
      DoneFrame(env, base, t.conns);
      AnsweredKeeps(base, c, conn);
    }
  }

  lemma AnsweredKeeps(s: Service, c: ConnId, conn: Conn)
    requires UploadsOk(s) && c in s.conns && Quieter(s.conns[c], conn)
    requires c in s.uploads ==> SameUpload(s.conns[c], conn)
    requires s.conns[c].complete ==> conn.complete
    ensures UploadsOk(s.(conns := s.conns[c := conn]))
  {
    ConnsKeep(s, s.conns[c := conn]);
  }

  lemma RespondKeeps(env: Env, s: Service, c: ConnId, status: int, drops: set<ConnId>)
    requires Inv(env, s)
    ensures Inv(env, Respond(s, c, status, drops))
  {
    if c in s.conns && !s.conns[c].answered {
      assert s.conns[c := s.conns[c]] == s.conns;
      RespondAfter(env, s, s, c, status, drops);
    }
  }
}
