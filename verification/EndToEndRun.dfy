/** Every event at the sender keeps both halves; so, over every run, what he counts as done is at the
    receiver, byte for byte. */
module EndToEndRun {
  import opened Transfers
  import opened EndToEnd
  import opened EndToEndTables
  import S = Send
  import SI = SendInvariant
  import SS = SendSteps
  import SendIds
  import R = Receive
  import RI = ReceiveInvariant
  import RR = ReceiveRows
  import RD = ReceiveDisk
  import Bytes

  /** `v` differs from `w` by what the sender did. */
  ghost predicate AtOneEnd(w: World, v: World) {
    && v == w.(sender := v.sender, mail := Sent(w, v.sender), run := v.run)
    && SS.FlightStep(w.sender, v.sender)
  }

  // --- the receiving half --------------------------------------------------------------------

  lemma SpentStays(w: World, v: World, session: Secret)
    requires AtOneEnd(w, v) && Spent(w, session)
    ensures Spent(v, session)
  {
  }

  /** An upload that goes out is the first of its file under its session. */
  ghost predicate Novel(w: World, v: World)
    requires AtOneEnd(w, v)
  {
    w.sender.issued < v.sender.issued && v.sender.flight[w.sender.issued].Upload? ==>
      var m := v.sender.flight[w.sender.issued];
      && Spent(v, m.session)
      && (forall p :: p in w.mail && w.mail[p].Upload? && w.mail[p].session == m.session ==> w.mail[p].id != m.id)
  }

  lemma MailGrows(w: World, v: World)
    requires MailApart(w) && MailSpent(w) && Known(w) && AtOneEnd(w, v) && Novel(w, v)
    ensures MailApart(v) && MailSpent(v) && Known(v)
  {
    forall q | q in v.mail && v.mail[q].Upload?
      ensures Spent(v, v.mail[q].session)
    {
      if q in w.mail && q < w.sender.issued { SpentStays(w, v, w.mail[q].session); }
    }
  }

  lemma SameBodies(w: World, v: World)
    requires WireOk(w) && Known(w) && AtOneEnd(w, v)
    ensures forall c :: Carries(v, c) <==> Carries(w, c)
    ensures forall c :: Carries(w, c) ==> Parcel(v, c) == Parcel(w, c)
  {
  }

  lemma RowsStay(g: Setting, w: World, v: World)
    requires WireOk(w) && Known(w) && AtOneEnd(w, v) && RowsOk(g, w)
    ensures RowsOk(g, v)
  {
    SameBodies(w, v);
    forall c | c in v.receiver.uploads
      ensures Writing(g, v, c)
    {
      assert Writing(g, w, c);
    }
    forall j: nat | j < |v.receiver.files| && IsDone(v.receiver.files[j])
      ensures Vouched(v, j)
    {
      assert Vouched(w, j);
      var c :| c in w.kept && Carries(w, c) && Parcel(w, c).session == w.shown
               && RowOfId(w.receiver.files, Parcel(w, c).id) == j;
      assert Carries(v, c) && Parcel(v, c) == Parcel(w, c);
    }
    forall c | c in v.kept && Carries(v, c) && Parcel(v, c).session == v.shown
      ensures Counted(v, c)
    {
      assert Carries(w, c) && Counted(w, c);
    }
  }

  lemma KeptAndAnswersStay(g: Setting, w: World, v: World)
    requires WireOk(w) && TablesOk(w) && Known(w) && AtOneEnd(w, v) && KeptOk(g, w) && AnswersOk(w)
    ensures WireOk(v) && TablesOk(v) && KeptOk(g, v) && AnswersOk(v)
  {
    SameBodies(w, v);
    forall c | c in v.kept && Carries(v, c)
      ensures Safe(g, v, c)
    {
      assert Safe(g, w, c);
    }
  }

  lemma ReceiverStays(g: Setting, w: World, v: World)
    requires ReceiverOk(g, w) && Known(w) && AtOneEnd(w, v) && Novel(w, v)
    ensures ReceiverOk(g, v) && Known(v)
  {
    MailGrows(w, v);
    KeptAndAnswersStay(g, w, v);
    if v.shown in v.grants {
      RowsStay(g, w, v);
    }
  }

  // --- the sending half ------------------------------------------------------------------------

  lemma BackedStays(w: World, v: World, f: FileEntry, h: FileEntry)
    requires WireOk(w) && Known(w) && AtOneEnd(w, v) && v.run == w.run
    requires Backed(w, f) && h.id == f.id && h.localPath == f.localPath
    ensures Backed(v, h)
  {
    SameBodies(w, v);
    var c :| c in w.kept && Carries(w, c) && Parcel(w, c).session == w.run
             && Parcel(w, c).id == f.id && Parcel(w, c).path == f.localPath;
    assert Carries(v, c) && Parcel(v, c) == Parcel(w, c);
  }

  lemma AllBackedStay(w: World, v: World)
    requires WireOk(w) && Known(w) && AtOneEnd(w, v) && v.run == w.run
    requires SS.SameFiles(w.sender.files, v.sender.files) && RunOk(w)
    ensures forall i :: 0 <= i < |v.sender.files| && IsDone(v.sender.files[i]) ==> Backed(v, v.sender.files[i])
  {
    forall i | 0 <= i < |v.sender.files| && IsDone(v.sender.files[i])
      ensures Backed(v, v.sender.files[i])
    {
      BackedStays(w, v, w.sender.files[i], v.sender.files[i]);
    }
  }

  lemma PastStays(s: S.Sender, t: S.Sender, id: Text)
    requires SS.SameFiles(s.files, t.files) && s.currentRow <= t.currentRow && Past(s, id)
    ensures Past(t, id)
  {
    forall i | t.currentRow < i < |t.files|
      ensures t.files[i].id != id
    {
      assert s.files[i].id != id;
    }
  }

  lemma IdsStay(a: seq<FileEntry>, b: seq<FileEntry>)
    requires SS.SameFiles(a, b) && SendIds.IdsApart(a)
    ensures SendIds.IdsApart(b)
  {
    forall i, j | 0 <= i < j < |b|
      ensures b[i].id != b[j].id
    {
      assert a[i].id != a[j].id;
    }
  }

  /** Nothing is done, or not by this event. */
  lemma QuietRun(w: World, v: World)
    requires WireOk(w) && Known(w) && RunOk(w) && AtOneEnd(w, v) && v.run == w.run
    requires SS.SameFiles(w.sender.files, v.sender.files)
    requires v.sender.session == w.sender.session || v.sender.session == 0
    requires v.sender.busy && v.sender.uploading ==>
               w.sender.busy && w.sender.uploading && v.sender.session == w.sender.session && w.sender.currentRow <= v.sender.currentRow
    requires w.sender.issued < v.sender.issued ==> !v.sender.flight[w.sender.issued].Upload?
    ensures RunOk(v) && Novel(w, v)
  {
    IdsStay(w.sender.files, v.sender.files);
    AllBackedStay(w, v);
    if v.sender.session != 0 { SpentStays(w, v, v.sender.session); }
    if v.sender.busy && v.sender.uploading {
      forall q | q in v.mail && v.mail[q].Upload? && v.mail[q].session == v.sender.session
        ensures Past(v.sender, v.mail[q].id)
      {
        PastStays(w.sender, v.sender, w.mail[q].id);
      }
    }
  }

  /** Rows none of which is done need no backing. */
  lemma NoDoneRun(w: World, v: World)
    requires AtOneEnd(w, v) && SendIds.IdsApart(v.sender.files)
    requires forall i :: 0 <= i < |v.sender.files| ==> !IsDone(v.sender.files[i])
    requires v.sender.session != 0 ==> Spent(v, v.sender.session) && v.run == v.sender.session
    requires !(v.sender.busy && v.sender.uploading)
    requires w.sender.issued < v.sender.issued ==> !v.sender.flight[w.sender.issued].Upload?
    ensures RunOk(v) && Novel(w, v)
  {
  }

  /** The next file goes out: one that has not gone out under this session. */
  lemma StartRun(w: World, v: World, opens: set<nat>)
    requires WireOk(w) && Known(w) && RunOk(w) && AtOneEnd(w, v) && v.run == w.run
    requires w.sender.busy && w.sender.uploading && !w.sender.cancelled && w.sender.session != 0
    requires v.sender == S.StartNextFile(w.sender, opens)
    ensures RunOk(v) && Novel(w, v)
  {
    var s, t := w.sender, v.sender;
    SS.StartSteps(s, opens);
    IdsStay(s.files, t.files);
    AllBackedStay(w, v);
    SpentStays(w, v, s.session);
    if t.busy {
      forall q | q in v.mail && v.mail[q].Upload? && v.mail[q].session == t.session
        ensures Past(t, v.mail[q].id)
      {
        if q in w.mail && q != s.issued { PastStays(s, t, w.mail[q].id); }
      }
    }
  }

  // --- replies -----------------------------------------------------------------------------------

  /** A success was heard from the connection that carried the request, which kept the body. */
  lemma SuccessIsKept(g: Setting, w: World, q: ReplyId, status: int)
    requires ReceiverOk(g, w) && Known(w) && q in w.sender.flight && w.sender.flight[q].Upload?
    requires Answered(w, q, status) && 200 <= status < 300
    ensures exists c :: c in w.kept && Carries(w, c) && Parcel(w, c) == w.sender.flight[q]
  {
    var c :| c in w.wire && w.wire[c] == q && c in w.receiver.conns
             && w.receiver.conns[c].statuses != [] && w.receiver.conns[c].statuses[0] == status;
    assert Carries(w, c) && RR.Good(w.receiver.conns[c]);
    assert c in w.kept;
  }

  /** The row of the answered upload is settled; `w` is the world before, `v` just after. */
  lemma AnswerRun(g: Setting, w: World, v: World, q: ReplyId, status: FileStatus)
    requires ReceiverOk(g, w) && SenderOk(w) && AtOneEnd(w, v) && v.run == w.run && SI.Uploading(w.sender)
    requires q in w.sender.flight
    requires v.sender == S.Taken(w.sender, q).(files := WithStatus(w.sender.files, w.sender.currentRow, status))
    requires status.FileDone? ==> exists c :: c in w.kept && Carries(w, c) && Parcel(w, c) == w.sender.flight[q]
    ensures RunOk(v) && Known(v)
  {
    var s, t := w.sender, v.sender;
    forall i, j | 0 <= i < j < |t.files|
      ensures t.files[i].id != t.files[j].id
    {
      assert s.files[i].id != s.files[j].id;
    }
    SpentStays(w, v, s.session);
    forall p | p in v.mail && v.mail[p].Upload? && v.mail[p].session == t.session
      ensures Past(t, v.mail[p].id)
    {
      assert Past(s, w.mail[p].id);
    }
    forall i | 0 <= i < |t.files| && IsDone(t.files[i])
      ensures Backed(v, t.files[i])
    {
      if i == s.currentRow {
        assert q == s.reply.value;
        var c :| c in w.kept && Carries(w, c) && Parcel(w, c) == s.flight[q];
        assert Carries(v, c) && Parcel(v, c) == Parcel(w, c);
      } else {
        BackedStays(w, v, s.files[i], t.files[i]);
      }
    }
  }
}
