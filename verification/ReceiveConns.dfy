/** What an event does to the connections: to the one it is about, and to all the others. */
module ReceiveConns {
  import opened Transfers
  import opened Receive
  import Bytes
  import Naming

  /** At most answered, or gone, since. */
  predicate Later(a: Conn, b: Conn) {
    && (b.open ==> a.open) && (a.answered ==> b.answered) && (a.complete ==> b.complete)
    && b.headSeen == a.headSeen && b.received == a.received && b.sink == a.sink
  }

  ghost predicate AllLater(a: map<ConnId, Conn>, b: map<ConnId, Conn>, but: set<ConnId>) {
    b.Keys == a.Keys && forall c :: c in a && c !in but ==> Later(a[c], b[c])
  }

  lemma LaterTwice(a: map<ConnId, Conn>, b: map<ConnId, Conn>, c: map<ConnId, Conn>, but: set<ConnId>)
    requires AllLater(a, b, but) && AllLater(b, c, {})
    ensures AllLater(a, c, but)
  {
  }

  lemma LaterBoth(a: map<ConnId, Conn>, b: map<ConnId, Conn>, c: map<ConnId, Conn>, but: set<ConnId>)
    requires AllLater(a, b, but) && AllLater(b, c, but)
    ensures AllLater(a, c, but)
  {
  }

  lemma AnswersLater(conns: map<ConnId, Conn>, who: set<ConnId>, status: int, drops: set<ConnId>)
    ensures AllLater(conns, AnswerAll(conns, who, status, drops), {})
  {
  }

  lemma FinishLater(s: Service, how: Ending, drops: set<ConnId>)
    ensures AllLater(s.conns, FinishSession(s, how, drops).conns, {})
  {
    var cut := AnswerAll(s.conns, s.uploads.Keys, 500, drops);
    AnswersLater(s.conns, s.uploads.Keys, 500, drops);
    if s.pending.Some? {
      AnswersLater(cut, {s.pending.value}, 403, drops);
      LaterTwice(s.conns, cut, AnswerAll(cut, {s.pending.value}, 403, drops), {});
    }
  }

  lemma ClosedLater(s: Service, c: ConnId, drops: set<ConnId>)
    ensures AllLater(s.conns, SlotsOnClosed(s, c, drops).conns, {})
  {
    if s.pending != Bytes.Some(c) && c in s.uploads {
      FinishLater(DropUpload(s, c), Over, drops);
    }
  }

  lemma RespondLater(s: Service, c: ConnId, status: int, drops: set<ConnId>)
    ensures AllLater(s.conns, Respond(s, c, status, drops).conns, {})
    ensures c in s.conns ==> Respond(s, c, status, drops).conns[c].answered
  {
    var t := Reply(s, c, status, drops);
    AnswersLater(s.conns, {c}, status, drops);
    ClosedLater(t, c, drops);
    LaterTwice(s.conns, t.conns, SlotsOnClosed(t, c, drops).conns, {});
  }

  lemma GoneLater(s: Service, c: ConnId, drops: set<ConnId>)
    ensures AllLater(s.conns, SocketGone(s, c, drops).conns, {})
  {
    if c in s.conns && s.conns[c].open {
      var t := s.(conns := s.conns[c := s.conns[c].(open := false, answered := true)]);
      ClosedLater(t, c, drops);
      LaterTwice(s.conns, t.conns, SlotsOnClosed(t, c, drops).conns, {});
    }
  }

  lemma AcceptLater(s: Service, folder: Option<Text>, drops: set<ConnId>)
    ensures AllLater(s.conns, Accept(s, folder, drops).conns, {})
  {
  }

  lemma DeclineLater(s: Service, drops: set<ConnId>)
    ensures AllLater(s.conns, Decline(s, drops).conns, {})
  {
  }

  /** One connection was read to its end, and then some were answered. */
  lemma ReadThrough(a: map<ConnId, Conn>, c: ConnId, conn: Conn, d: map<ConnId, Conn>)
    requires c in a && conn.complete && AllLater(a[c := conn], d, {})
    ensures AllLater(a, d, {c}) && d[c].complete
  {
    var b := a[c := conn];
    assert Later(b[c], d[c]);
    forall e | e in a && e != c
      ensures Later(a[e], d[e])
    {
      assert Later(b[e], d[e]);
    }
  }

  lemma PreparedLater(s: Service, c: ConnId, p: Prepare, drops: set<ConnId>, conn: Conn)
    requires c in s.conns && conn == s.conns[c].(headSeen := true, complete := true)
    ensures AllLater(s.conns[c := conn], PrepareUpload(s, c, p, drops).conns, {})
  {
    var t := s.(conns := s.conns[c := conn]);
    if Verdict(s, p) != 0 {
      AnswersLater(t.conns, {c}, Verdict(s, p), drops);
    } else if p.quickSave {
      AcceptLater(t.(files := EntriesOf(p.files), state := State.Pending, pending := Bytes.Some(c)), p.folder, drops);
    }
  }

  lemma PrepareLater(s: Service, c: ConnId, p: Prepare, drops: set<ConnId>)
    requires c in s.conns
    ensures AllLater(s.conns, PrepareUpload(s, c, p, drops).conns, {c})
    ensures PrepareUpload(s, c, p, drops).conns[c].complete
  {
    var conn := s.conns[c].(headSeen := true, complete := true);
    PreparedLater(s, c, p, drops, conn);
    ReadThrough(s.conns, c, conn, PrepareUpload(s, c, p, drops).conns);
  }

  lemma CancelLater(s: Service, c: ConnId, session: Secret, drops: set<ConnId>)
    requires c in s.conns
    ensures AllLater(s.conns, PeerCancel(s, c, session, drops).conns, {c})
    ensures PeerCancel(s, c, session, drops).conns[c].complete
  {
    var conn := s.conns[c].(headSeen := true, complete := true);
    var seen := s.conns[c := conn];
    var t := Reply(s.(conns := seen), c, 200, drops);
    AnswersLater(seen, {c}, 200, drops);
    FinishLater(t, Stopped, drops);
    LaterTwice(seen, t.conns, FinishSession(t, Stopped, drops).conns, {});
    ReadThrough(s.conns, c, conn, PeerCancel(s, c, session, drops).conns);
  }

  lemma OtherLater(s: Service, c: ConnId, status: int, drops: set<ConnId>)
    requires c in s.conns
    ensures var t := Reply(s.(conns := s.conns[c := s.conns[c].(headSeen := true, complete := true)]), c, status, drops);
            AllLater(s.conns, t.conns, {c}) && t.conns[c].complete
  {
    var conn := s.conns[c].(headSeen := true, complete := true);
    AnswersLater(s.conns[c := conn], {c}, status, drops);
    ReadThrough(s.conns, c, conn, AnswerAll(s.conns[c := conn], {c}, status, drops));
  }

  // --- the connection of an upload ----------------------------------------------------------------

  /** The head of an upload has been read, and unless the connection was answered, its body has somewhere
      to go. */
  predicate HeadTaken(a: Conn, b: Conn) {
    b.open && !b.answered && !b.complete ==> b.headSeen && b.sink.Some? && b.received == a.received
  }

  lemma FailedHead(s: Service, c: ConnId, row: nat, drops: set<ConnId>)
    requires c in s.conns
    ensures AllLater(s.conns, FailRow(s, c, row, drops).conns, {}) && FailRow(s, c, row, drops).conns[c].answered
  {
  }

  lemma OpenedHead(s: Service, c: ConnId, row: nat, final: Text, u: Service)
    requires c in s.conns && row < |s.files| && u == OpenUpload(s, c, row, final)
    ensures AllLater(s.conns, u.conns, {c})
    ensures u.conns[c].sink.Some? && u.conns[c] == s.conns[c].(sink := u.conns[c].sink)
  {
  }

  lemma TakenHead(s: Service, c: ConnId, row: nat, length: int, opens: bool, drops: set<ConnId>)
    requires c in s.conns && row < |s.files| && s.conns[c].headSeen
    ensures var t := TakeUpload(s, c, row, length, opens, drops);
            AllLater(s.conns, t.conns, {c}) && HeadTaken(s.conns[c], t.conns[c])
  {
    var reserved := Naming.Reserve(s.disk.Keys, s.directory, s.files[row].fileName);
    FailedHead(s, c, row, drops);
    if reserved.Some? && opens {
      var u := OpenUpload(s, c, row, reserved.value);
      OpenedHead(s, c, row, reserved.value, u);
      RespondLater(u, c, 413, drops);
      LaterTwice(s.conns, u.conns, Respond(u, c, 413, drops).conns, {c});
    }
  }

  lemma HeadLater(s: Service, c: ConnId, r: UploadRequest, opens: bool, drops: set<ConnId>)
    requires c in s.conns
    ensures var t := UploadHead(s, c, r, opens, drops);
            AllLater(s.conns, t.conns, {c}) && HeadTaken(s.conns[c], t.conns[c])
  {
    var t := s.(conns := s.conns[c := s.conns[c].(headSeen := true)]);
    var status := Admission(t, c, r);
    if status != 0 {
      AnswersLater(t.conns, {c}, status, drops);
      LaterTwice(s.conns, t.conns, Reply(t, c, status, drops).conns, {c});
    } else {
      TakenHead(t, c, RowOfId(t.files, r.fileId), r.length, opens, drops);
      HeadThrough(s.conns, t.conns, UploadHead(s, c, r, opens, drops).conns, c);
    }
  }

  lemma HeadThrough(a: map<ConnId, Conn>, b: map<ConnId, Conn>, d: map<ConnId, Conn>, c: ConnId)
    requires c in a && b == a[c := a[c].(headSeen := true)] && AllLater(b, d, {c}) && c in d && HeadTaken(b[c], d[c])
    ensures AllLater(a, d, {c}) && HeadTaken(a[c], d[c])
  {
  }

  /** `n` more bytes were counted, or the connection was answered. */
  predicate BlockTaken(a: Conn, b: Conn, n: nat) {
    b.open && !b.answered && !b.complete ==> b.headSeen == a.headSeen && b.sink == a.sink && b.received == a.received + n
  }

  lemma WrittenConns(s: Service, c: ConnId, data: seq<Byte>)
    requires c in s.conns && s.conns[c].sink.Some?
    ensures Written(s, c, data).conns == s.conns
  {
  }

  lemma ProgressConns(t: Service, c: ConnId, total: nat)
    requires c in t.conns
    ensures Progress(t, c, total).conns == t.conns[c := t.conns[c].(received := total)]
  {
  }

  lemma BlockCases(s: Service, c: ConnId, data: seq<Byte>, taken: nat, drops: set<ConnId>, t: Service)
    requires c in s.conns && s.conns[c].sink.Some? && taken <= |data| && t == Written(s, c, data[..taken]) && t.conns == s.conns
    ensures var u := UploadData(s, c, data, taken, drops);
            u == Respond(s, c, 413, drops) || u == Respond(t, c, 500, drops) || u == Progress(t, c, s.conns[c].received + |data|)
  {
  }

  lemma CountedLater(conns: map<ConnId, Conn>, c: ConnId, n: nat)
    requires c in conns
    ensures var after := conns[c := conns[c].(received := conns[c].received + n)];
            AllLater(conns, after, {c}) && BlockTaken(conns[c], after[c], n)
  {
  }

  lemma AnsweredLater(a: map<ConnId, Conn>, b: map<ConnId, Conn>, c: ConnId, n: nat)
    requires c in a && AllLater(a, b, {}) && b[c].answered
    ensures AllLater(a, b, {c}) && BlockTaken(a[c], b[c], n)
  {
  }

  lemma BlockLater(s: Service, c: ConnId, data: seq<Byte>, taken: nat, drops: set<ConnId>)
    requires c in s.conns && s.conns[c].sink.Some? && taken <= |data|
    ensures AllLater(s.conns, UploadData(s, c, data, taken, drops).conns, {c})
    ensures BlockTaken(s.conns[c], UploadData(s, c, data, taken, drops).conns[c], |data|)
  {
    var t, u := Written(s, c, data[..taken]), UploadData(s, c, data, taken, drops);
    WrittenConns(s, c, data[..taken]);
    BlockCases(s, c, data, taken, drops, t);
    CountedLater(s.conns, c, |data|);
    ProgressConns(t, c, s.conns[c].received + |data|);
    RespondLater(s, c, 413, drops);
    RespondLater(t, c, 500, drops);
    if u == Respond(s, c, 413, drops) || u == Respond(t, c, 500, drops) {
      AnsweredLater(s.conns, u.conns, c, |data|);
    }
  }

  lemma EndLater(env: Env, s: Service, c: ConnId, renames: bool, drops: set<ConnId>)
    requires c in s.conns
    requires c in s.uploads ==> s.uploads[c].row < |s.files| && s.uploads[c].part in s.disk
    ensures var t := UploadEnd(env, s, c, renames, drops);
            AllLater(s.conns, t.conns, {c}) && t.conns[c].complete
  {
    var conn := s.conns[c].(complete := true);
    var t := s.(conns := s.conns[c := conn]);
    if c !in s.uploads {
      AnswersLater(t.conns, {c}, 400, drops);
    } else {
      var v := Conclude(env, t, c, renames);
      var w := Reply(v, c, Outcome(env, t, t.uploads[c]), drops).(idleTimer := true);
      AnswersLater(t.conns, {c}, Outcome(env, t, t.uploads[c]), drops);
      FinishLater(w, Over, drops);
      LaterTwice(t.conns, w.conns, FinishIfSettled(w, drops).conns, {});
    }
    ReadThrough(s.conns, c, conn, UploadEnd(env, s, c, renames, drops).conns);
  }

  // --- any event ---------------------------------------------------------------------------------

  /** The connection that an event is about. */
  function Actor(e: Event): set<ConnId> {
    match e
    case PrepareRequest(c, _) => {c}
    case UploadHeaders(c, _, _) => {c}
    case Block(c, _, _) => {c}
    case BodyEnd(c, _) => {c}
    case CancelRequest(c, _) => {c}
    case OtherRequest(c, _) => {c}
    case _ => {}
  }

  lemma NextLater(env: Env, s: Service, e: Event, drops: set<ConnId>)
    requires Enabled(s, e) && !e.Connected?
    ensures AllLater(s.conns, Next(env, s, e, drops).conns, Actor(e))
  {
    match e
    case PrepareRequest(c, p) => PrepareLater(s, c, p, drops);
    case UploadHeaders(c, r, opens) => HeadLater(s, c, r, opens, drops);
    case Block(c, data, taken) => BlockLater(s, c, data, taken, drops);
    case BodyEnd(c, renames) => EndLater(env, s, c, renames, drops);
    case CancelRequest(c, session) => CancelLater(s, c, session, drops);
    case OtherRequest(c, status) => OtherLater(s, c, status, drops);
    case ConnTimeout(c) =>
      GoneLater(s, c, drops);
      RespondLater(s, c, 408, drops);
    case ConnClosed(c) => GoneLater(s, c, drops);
    case UserAccepts(folder) => AcceptLater(s, folder, drops);
    case UserDeclines => DeclineLater(s, drops);
    case UserCancels =>
      DeclineLater(s, drops);
      FinishLater(s, Stopped, drops);
    case AcceptTimerFires => DeclineLater(s, drops);
    case IdleTimerFires => FinishLater(s.(idleTimer := false), Over, drops);
    case StopListening => FinishLater(s, Stopped, drops);
  }

  /** A connection that still expects a body has somewhere to put it. */
  ghost predicate SinksKnown(s: Service) {
    forall c :: c in s.conns && Expects(s, c) && s.conns[c].headSeen ==> s.conns[c].sink.Some?
  }

  lemma ActorSinks(env: Env, s: Service, e: Event, drops: set<ConnId>, c: ConnId)
    requires Enabled(s, e) && c in Actor(e) && SinksKnown(s)
    ensures var t := Next(env, s, e, drops);
            c in t.conns && (Expects(t, c) && t.conns[c].headSeen ==> t.conns[c].sink.Some?)
  {
    match e
    case PrepareRequest(_, p) => PrepareLater(s, c, p, drops);
    case UploadHeaders(_, r, opens) => HeadLater(s, c, r, opens, drops);
    case Block(_, data, taken) => BlockLater(s, c, data, taken, drops);
    case BodyEnd(_, renames) => EndLater(env, s, c, renames, drops);
    case CancelRequest(_, session) => CancelLater(s, c, session, drops);
    case OtherRequest(_, status) => OtherLater(s, c, status, drops);
  }

  lemma NextSinks(env: Env, s: Service, e: Event, drops: set<ConnId>)
    requires Enabled(s, e) && SinksKnown(s)
    ensures SinksKnown(Next(env, s, e, drops))
  {
    if !e.Connected? {
      var t := Next(env, s, e, drops);
      NextLater(env, s, e, drops);
      forall c | c in t.conns && Expects(t, c) && t.conns[c].headSeen
        ensures t.conns[c].sink.Some?
      {
        if c in Actor(e) { ActorSinks(env, s, e, drops, c); } else { assert Later(s.conns[c], t.conns[c]); }
      }
    }
  }
}
