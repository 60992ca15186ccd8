/** The books of the receiving half: who is connected, which sessions are the sender's, where his
    files are kept and what he was answered. */
module EndToEndTables {
  import opened Transfers
  import opened EndToEnd
  import opened EndToEndRows
  import opened EndToEndReceiver
  import S = Send
  import R = Receive
  import RI = ReceiveInvariant
  import RS = ReceiveSafety
  import RR = ReceiveRows
  import RF = ReceiveFrame
  import RD = ReceiveDisk
  import Naming
  import Bytes

  // --- sessions ----------------------------------------------------------------------------

  /** The books before and after: sessions are only ever added, each under a new secret. */
  ghost predicate BooksGrow(w: World, v: World) {
    && (forall k :: k in w.grants ==> k in v.grants && v.grants[k] == w.grants[k])
    && w.receiver.issued <= v.receiver.issued
    && (v.shown == w.shown || v.shown == 0 || w.receiver.issued < v.shown <= v.receiver.issued)
    && (forall k :: k in v.grants && k !in w.grants ==> w.receiver.issued < k <= v.receiver.issued)
    && (v.receiver.session != 0 ==> v.shown == v.receiver.session)
  }

  lemma BooksAfresh(w: World, e: R.Event, t: R.Service, v: World)
    requires TablesOk(w) && RF.Afresh(w.receiver, t) && RF.Replaces(w.receiver, e)
    requires v.receiver == t && v.grants == GrantsAfter(w, e, t) && v.shown == ShownAfter(w, e, t)
    ensures BooksGrow(w, v)
  {
  }

  lemma BooksSteady(w: World, e: R.Event, t: R.Service, v: World, x: set<ConnId>, n: set<ConnId>)
    requires TablesOk(w) && RF.Steady(w.receiver, t, x, n) && !RF.Replaces(w.receiver, e)
    requires v.receiver == t && v.grants == GrantsAfter(w, e, t) && v.shown == ShownAfter(w, e, t)
    ensures BooksGrow(w, v)
  {
  }

  lemma NextGrants(g: Setting, w: World, e: R.Event, drops: set<ConnId>, v: World)
    requires Stepped(g, w, e, drops, v)
    ensures BooksGrow(w, v)
  {
    if RF.Replaces(w.receiver, e) {
      RF.NextAfresh(g.env, w.receiver, e, drops);
      BooksAfresh(w, e, v.receiver, v);
    } else {
      RF.NextSteady(g.env, w.receiver, e, drops);
      BooksSteady(w, e, v.receiver, v, RR.Heard(g.env, w.receiver, e), RF.Begun(g.env, w.receiver, e));
    }
  }

  lemma NextMail(g: Setting, w: World, e: R.Event, drops: set<ConnId>, v: World)
    requires Stepped(g, w, e, drops, v)
    ensures MailApart(v) && MailSpent(v)
  {
    NextGrants(g, w, e, drops, v);
    forall q | q in v.mail && v.mail[q].Upload?
      ensures Spent(v, v.mail[q].session)
    {
      assert Spent(w, w.mail[q].session);
    }
  }

  // --- connections ---------------------------------------------------------------------------

  lemma NextConns(g: Setting, w: World, e: R.Event, drops: set<ConnId>, v: World)
    requires Stepped(g, w, e, drops, v)
    ensures RR.ConnsHeld(w.receiver.conns, v.receiver.conns, RR.Heard(g.env, w.receiver, e))
  {
    if RF.Replaces(w.receiver, e) {
      RF.NextAfresh(g.env, w.receiver, e, drops);
    } else {
      RF.NextSteady(g.env, w.receiver, e, drops);
    }
  }

  lemma NextComplete(g: Setting, w: World, e: R.Event, drops: set<ConnId>, v: World, c: ConnId)
    requires Stepped(g, w, e, drops, v) && c in v.kept
    ensures c in v.receiver.conns && v.receiver.conns[c].complete && Carries(v, c)
  {
    NextConns(g, w, e, drops, v);
    if c !in w.kept {
      assert e.BodyEnd? && e.c == c;
      RF.EndSteady(g.env, w.receiver, e, drops);
    }
  }

  lemma NextPending(g: Setting, w: World, e: R.Event, drops: set<ConnId>, v: World)
    requires Stepped(g, w, e, drops, v) && v.receiver.pending.Some?
    ensures v.shown == 0 && !Carries(v, v.receiver.pending.value)
  {
    if RF.Replaces(w.receiver, e) {
      RF.NextAfresh(g.env, w.receiver, e, drops);
    } else {
      RF.NextSteady(g.env, w.receiver, e, drops);
    }
  }

  lemma NextUploads(g: Setting, w: World, e: R.Event, drops: set<ConnId>, v: World)
    requires Stepped(g, w, e, drops, v)
    ensures v.receiver.uploads.Keys <= w.receiver.uploads.Keys + RF.Begun(g.env, w.receiver, e)
    ensures v.receiver.uploads == map[] || (v.shown == w.shown && v.grants == w.grants)
  {
    if RF.Replaces(w.receiver, e) {
      RF.NextAfresh(g.env, w.receiver, e, drops);
    } else {
      RF.NextSteady(g.env, w.receiver, e, drops);
    }
  }

  lemma NextOurs(g: Setting, w: World, e: R.Event, drops: set<ConnId>, v: World, c: ConnId)
    requires Stepped(g, w, e, drops, v) && c in v.receiver.uploads && Carries(v, c)
    ensures v.shown in v.grants
  {
    NextUploads(g, w, e, drops, v);
    if c !in w.receiver.uploads {
      assert c in RF.Begun(g.env, w.receiver, e);
      assert Spent(w, Parcel(w, c).session);
    }
  }

  lemma NextTables(g: Setting, w: World, e: R.Event, drops: set<ConnId>, v: World)
    requires Stepped(g, w, e, drops, v)
    ensures TablesOk(v)
  {
    NextGrants(g, w, e, drops, v);
    NextConns(g, w, e, drops, v);
    forall c | c in v.kept
      ensures c in v.receiver.conns && v.receiver.conns[c].complete
    {
      NextComplete(g, w, e, drops, v, c);
    }
    forall c | c in v.receiver.uploads && Carries(v, c)
      ensures v.shown in v.grants
    {
      NextOurs(g, w, e, drops, v, c);
    }
    if v.receiver.pending.Some? {
      NextPending(g, w, e, drops, v);
    }
  }

  lemma NotUnderWay(s: R.Service, c: ConnId)
    requires RI.UploadsOk(s) && c in s.conns && s.conns[c].complete
    ensures c !in s.uploads
  {
    assert c in s.uploads ==> RI.UploadOk(s, c);
  }

  lemma NextWire(g: Setting, w: World, e: R.Event, drops: set<ConnId>, v: World)
    requires Stepped(g, w, e, drops, v) && RI.Inv(g.env, v.receiver)
    ensures WireOk(v)
  {
    forall c | c in v.kept
      ensures Carries(v, c) && c !in v.receiver.uploads
    {
      NextComplete(g, w, e, drops, v, c);
      NotUnderWay(v.receiver, c);
    }
  }

  // --- files -----------------------------------------------------------------------------------

  ghost predicate Safe(g: Setting, w: World, c: ConnId)
    requires c in w.kept && Carries(w, c)
  {
    Stored(g, w, c) || (RD.ProbeNamed(w.kept[c]) && Parcel(w, c).session != w.shown)
  }

  lemma SparedStays(g: Setting, w: World, v: World, c: ConnId)
    requires c in w.kept && c in v.kept && v.kept[c] == w.kept[c] && Carries(w, c) && Safe(g, w, c)
    requires v.mail == w.mail && v.wire == w.wire && RD.Spared(w.receiver, v.receiver, w.kept[c])
    requires 0 < Parcel(w, c).session <= w.receiver.issued
    requires v.shown == w.shown || v.shown == 0 || w.receiver.issued < v.shown
    requires RD.Starts(w.receiver, v.receiver) ==> w.receiver.issued < v.shown
    ensures Safe(g, v, c)
  {
    RD.ProbesAreNamed(v.receiver.directory);
  }

  lemma NextStarts(g: Setting, w: World, e: R.Event, drops: set<ConnId>, v: World)
    requires Stepped(g, w, e, drops, v)
    ensures RD.Starts(w.receiver, v.receiver) ==> w.receiver.issued < v.shown
  {
    if RF.Replaces(w.receiver, e) {
      RF.NextAfresh(g.env, w.receiver, e, drops);
    } else {
      RF.NextSteady(g.env, w.receiver, e, drops);
    }
  }

  lemma KeptStays(g: Setting, w: World, e: R.Event, drops: set<ConnId>, v: World, c: ConnId)
    requires Stepped(g, w, e, drops, v) && c in w.kept && c in v.kept && v.kept[c] == w.kept[c]
    ensures Safe(g, v, c)
  {
    NextGrants(g, w, e, drops, v);
    NextStarts(g, w, e, drops, v);
    assert Spent(w, Parcel(w, c).session);
    RD.NextSpares(g.env, w.receiver, e, drops);
    assert RD.Spared(w.receiver, v.receiver, w.kept[c]);
    assert Safe(g, w, c);
    SparedStays(g, w, v, c);
  }

  lemma KeptComes(g: Setting, w: World, e: R.Event, drops: set<ConnId>, v: World, c: ConnId)
    requires Stepped(g, w, e, drops, v) && e.BodyEnd? && e.c == c
    requires Carries(w, c) && c in w.receiver.uploads && R.Outcome(g.env, w.receiver, w.receiver.uploads[c]) == 200
    ensures Stored(g, v, c)
  {
    var u := w.receiver.uploads[c];
    assert RI.UploadOk(w.receiver, c) && Writing(g, w, c);
    assert w.receiver.disk[u.part] == Body(g, w, c);
    RD.AnsweredExactly(g.env, w.receiver, c, e.renames, drops);
  }

  lemma KeptUntouched(g: Setting, w: World, e: R.Event, drops: set<ConnId>, v: World, c: ConnId)
    requires Stepped(g, w, e, drops, v) && c in w.kept
    ensures c in v.kept && v.kept[c] == w.kept[c]
  {
    assert w.receiver.conns[c].complete;
  }

  lemma NextKept(g: Setting, w: World, e: R.Event, drops: set<ConnId>, v: World)
    requires Stepped(g, w, e, drops, v)
    ensures KeptOk(g, v)
  {
    forall c | c in v.kept && Carries(v, c)
      ensures Stored(g, v, c) || (RD.ProbeNamed(v.kept[c]) && Parcel(v, c).session != v.shown)
    {
      if c in w.kept {
        KeptUntouched(g, w, e, drops, v, c);
        KeptStays(g, w, e, drops, v, c);
      } else {
        KeptComes(g, w, e, drops, v, c);
      }
    }
  }

  // --- answers -----------------------------------------------------------------------------------

  /** A done row was brought by whoever carries its id under this session. */
  lemma DoneWasKept(w: World, c: ConnId, j: nat)
    requires WireOk(w) && MailApart(w) && Carries(w, c) && Vouched(w, j)
    requires Parcel(w, c).session == w.shown && RowOfId(w.receiver.files, Parcel(w, c).id) == j
    ensures c in w.kept
  {
    var d :| d in w.kept && Carries(w, d) && Parcel(w, d).session == w.shown
             && RowOfId(w.receiver.files, Parcel(w, d).id) == j;
    SameParcel(w, c, d);
  }

  /** Being told that the file is there already means having brought it. */
  lemma ToldIsKept(g: Setting, w: World, c: ConnId, r: R.UploadRequest, opens: bool)
    requires ReceiverOk(g, w) && c in w.receiver.conns && Genuine(g, w, R.UploadHeaders(c, r, opens)) && Carries(w, c)
    ensures R.Admission(w.receiver, c, r) == 200 ==> c in w.kept
  {
    if R.Admission(w.receiver, c, r) == 200 {
      assert Spent(w, Parcel(w, c).session);
      var j := RowOfId(w.receiver.files, r.fileId);
      assert Vouched(w, j);
      DoneWasKept(w, c, j);
    }
  }

  /** The sender's request is never told that its file is there already. */
  lemma NeverDoneBefore(g: Setting, w: World, c: ConnId, r: R.UploadRequest, opens: bool)
    requires ReceiverOk(g, w) && R.Enabled(w.receiver, R.UploadHeaders(c, r, opens)) && Genuine(g, w, R.UploadHeaders(c, r, opens))
    requires Carries(w, c)
    ensures R.Admission(w.receiver, c, r) != 200
  {
    ToldIsKept(g, w, c, r, opens);
  }

  lemma HeardIsKept(g: Setting, w: World, e: R.Event, c: ConnId)
    requires ReceiverOk(g, w) && R.Enabled(w.receiver, e) && Genuine(g, w, e)
    requires Carries(w, c) && c in RR.Heard(g.env, w.receiver, e)
    ensures c in KeptAfter(g, w, e)
  {
    match e
    case UploadHeaders(_, r, opens) => NeverDoneBefore(g, w, c, r, opens);
    case _ =>
  }

  lemma NextAnswers(g: Setting, w: World, e: R.Event, drops: set<ConnId>, v: World)
    requires Stepped(g, w, e, drops, v)
    ensures AnswersOk(v)
  {
    NextConns(g, w, e, drops, v);
    forall c | Carries(v, c) && c in v.receiver.conns && RR.Good(v.receiver.conns[c])
      ensures c in v.kept
    {
      assert Carries(w, c) && c in w.receiver.conns;
      if c in RR.Heard(g.env, w.receiver, e) {
        HeardIsKept(g, w, e, c);
      } else {
        assert c in w.kept;
      }
    }
  }

  /** Every event at the receiver keeps the receiving half. */
  lemma ReceiverKeeps(g: Setting, w: World, e: R.Event, drops: set<ConnId>)
    requires ReceiverOk(g, w) && R.Enabled(w.receiver, e) && Genuine(g, w, e)
    ensures ReceiverOk(g, ToReceiver(g, w, e, drops))
  {
    var v := ToReceiver(g, w, e, drops);
    RS.NextKeeps(g.env, w.receiver, e, drops);
    NextMail(g, w, e, drops, v);
    NextTables(g, w, e, drops, v);
    NextWire(g, w, e, drops, v);
    NextRows(g, w, e, drops, v);
    NextKept(g, w, e, drops, v);
    NextAnswers(g, w, e, drops, v);
  }

  // --- a request arrives ---------------------------------------------------------------------------

  lemma ReachesRows(g: Setting, w: World, v: World, c: ConnId, q: ReplyId, conn: R.Conn)
    requires WireOk(w) && TablesOk(w) && c !in w.receiver.conns
    requires v == w.(wire := w.wire[c := q], receiver := w.receiver.(conns := w.receiver.conns[c := conn]))
    requires RowsOk(g, w)
    ensures RowsOk(g, v)
  {
    assert c !in w.wire;
    forall d | d in v.receiver.uploads
      ensures Writing(g, v, d)
    {
      assert Writing(g, w, d);
    }
    forall j: nat | j < |v.receiver.files| && IsDone(v.receiver.files[j])
      ensures Vouched(v, j)
    {
      assert Vouched(w, j);
      var d :| d in w.kept && Carries(w, d) && Parcel(w, d).session == w.shown
               && RowOfId(w.receiver.files, Parcel(w, d).id) == j;
      assert Carries(v, d) && Parcel(v, d) == Parcel(w, d);
    }
    forall d | d in v.kept && Carries(v, d) && Parcel(v, d).session == v.shown
      ensures Counted(v, d)
    {
      assert Carries(w, d) && Counted(w, d);
    }
  }

  /** A world into which one more connection has come, carrying `q`. */
  ghost predicate Reached(g: Setting, w: World, v: World, c: ConnId, q: ReplyId, conn: R.Conn) {
    && ReceiverOk(g, w) && c !in w.receiver.conns && q in w.mail && q !in w.wire.Values && conn.statuses == []
    && v == w.(wire := w.wire[c := q], receiver := w.receiver.(conns := w.receiver.conns[c := conn]))
  }

  lemma SameOtherwise(g: Setting, w: World, v: World, c: ConnId, q: ReplyId, conn: R.Conn)
    requires Reached(g, w, v, c, q, conn)
    ensures c !in w.wire && c !in w.kept && c !in w.receiver.uploads
    ensures forall d :: d != c ==> (Carries(v, d) <==> Carries(w, d)) && (Carries(w, d) ==> Parcel(v, d) == Parcel(w, d))
  {
    assert c in w.receiver.uploads ==> RI.UploadOk(w.receiver, c);
  }

  lemma ReachesWire(g: Setting, w: World, v: World, c: ConnId, q: ReplyId, conn: R.Conn)
    requires Reached(g, w, v, c, q, conn)
    ensures WireOk(v)
  {
    SameOtherwise(g, w, v, c, q, conn);
    forall d, e | d in v.wire && e in v.wire && d != e
      ensures v.wire[d] != v.wire[e]
    {
      assert d in w.wire ==> w.wire[d] in w.wire.Values;
      assert e in w.wire ==> w.wire[e] in w.wire.Values;
    }
  }

  lemma ReachesMail(g: Setting, w: World, v: World, c: ConnId, q: ReplyId, conn: R.Conn)
    requires Reached(g, w, v, c, q, conn)
    ensures MailApart(v) && MailSpent(v)
  {
    forall p | p in v.mail && v.mail[p].Upload?
      ensures Spent(v, v.mail[p].session)
    {
      assert Spent(w, w.mail[p].session);
    }
  }

  lemma ReachesKept(g: Setting, w: World, v: World, c: ConnId, q: ReplyId, conn: R.Conn)
    requires Reached(g, w, v, c, q, conn)
    ensures KeptOk(g, v) && AnswersOk(v)
  {
    SameOtherwise(g, w, v, c, q, conn);
    forall d | d in v.kept && Carries(v, d)
      ensures Safe(g, v, d)
    {
      assert Safe(g, w, d);
    }
  }

  lemma ReachesTables(g: Setting, w: World, v: World, c: ConnId, q: ReplyId, conn: R.Conn)
    requires Reached(g, w, v, c, q, conn)
    ensures TablesOk(v)
  {
    SameOtherwise(g, w, v, c, q, conn);
  }

  lemma ReachesKeeps(g: Setting, w: World, q: ReplyId, c: ConnId, address: Text)
    requires ReceiverOk(g, w) && Can(g, w, Reaches(q, c, address))
    ensures ReceiverOk(g, After(g, w, Reaches(q, c, address)))
  {
    var v := After(g, w, Reaches(q, c, address));
    var conn := R.Conn(address, true, false, false, false, Bytes.None, 0, []);
    RS.ConnectedKeeps(g.env, w.receiver, c, address);
    ReachedIs(g, w, v, q, c, address, conn);
    ReachesWire(g, w, v, c, q, conn);
    ReachesMail(g, w, v, c, q, conn);
    ReachesKept(g, w, v, c, q, conn);
    ReachesTables(g, w, v, c, q, conn);
    if w.shown in w.grants {
      ReachesRows(g, w, v, c, q, conn);
    }
  }

  lemma ReachedIs(g: Setting, w: World, v: World, q: ReplyId, c: ConnId, address: Text, conn: R.Conn)
    requires ReceiverOk(g, w) && Can(g, w, Reaches(q, c, address)) && v == After(g, w, Reaches(q, c, address))
    requires conn == R.Conn(address, true, false, false, false, Bytes.None, 0, [])
    ensures Reached(g, w, v, c, q, conn)
  {
  }
}
