/** Every event at the receiver, and every arrival of a connection, keeps the receiving half. */
module EndToEndReceiver {
  import opened Transfers
  import opened EndToEnd
  import opened EndToEndRows
  import S = Send
  import R = Receive
  import RI = ReceiveInvariant
  import RS = ReceiveSafety
  import RR = ReceiveRows
  import RF = ReceiveFrame
  import RD = ReceiveDisk
  import Naming
  import Bytes

  /** The world after an event at the receiver, its parts named. */
  ghost predicate Stepped(g: Setting, w: World, e: R.Event, drops: set<ConnId>, v: World) {
    && ReceiverOk(g, w) && R.Enabled(w.receiver, e) && Genuine(g, w, e)
    && v == ToReceiver(g, w, e, drops)
  }

  // --- rows ------------------------------------------------------------------------------

  /** An upload that is admitted under a session of the sender is one of his. */
  lemma AdmittedCarries(g: Setting, w: World, c: ConnId, r: R.UploadRequest, opens: bool)
    requires Genuine(g, w, R.UploadHeaders(c, r, opens)) && c in w.receiver.conns
    requires R.Admission(w.receiver, c, r) == 0 || R.Admission(w.receiver, c, r) == 200
    requires w.receiver.session in w.grants
    ensures Carries(w, c) && Parcel(w, c).session == w.receiver.session && Parcel(w, c).id == r.fileId
    ensures 0 <= RowOfId(w.receiver.files, r.fileId)
  {
  }

  /** What the proofs about rows start from. */
  ghost predicate RowsHold(g: Setting, w: World) {
    RowsOk(g, w) && WireOk(w) && MailApart(w)
  }

  /** The head is read, the upload opened, and whatever follows is quiet. */
  lemma HeadRows(g: Setting, w: World, v: World, c: ConnId, row: nat, final: Text)
    requires RowsHold(g, w) && SameMail(w, v) && v.kept == w.kept
    requires c in w.receiver.conns && c !in w.receiver.uploads && c !in w.kept
    requires row < |w.receiver.files| && !IsDone(w.receiver.files[row])
    requires Carries(w, c) && Parcel(w, c).session == w.shown && RowOfId(w.receiver.files, Parcel(w, c).id) == row
    requires final + Naming.PART !in w.receiver.disk
    requires RR.Quiet(R.OpenUpload(RR.HeadSeen(w.receiver, c), c, row, final), v.receiver, {})
    ensures RowsOk(g, v)
  {
    var t := RR.HeadSeen(w.receiver, c);
    var u := R.OpenUpload(t, c, row, final);
    RR.SeenQuiet(w.receiver, c, w.receiver.conns[c].(headSeen := true));
    RowsQuiet(g, w, w.(receiver := t), {});
    OpenStep(g, w.(receiver := t), w.(receiver := u), c, row, final);
    RowsQuiet(g, w.(receiver := u), v, {});
  }

  lemma HeadStir(g: Setting, w: World, v: World, c: ConnId, r: R.UploadRequest, drops: set<ConnId>)
    requires RowsHold(g, w) && SameMail(w, v) && v.kept == w.kept && RI.Inv(g.env, w.receiver)
    requires R.Enabled(w.receiver, R.UploadHeaders(c, r, true)) && Genuine(g, w, R.UploadHeaders(c, r, true))
    requires RR.Opens(w.receiver, c, r) && w.receiver.session in w.grants && w.shown == w.receiver.session && c !in w.kept
    requires v.receiver == R.UploadHead(w.receiver, c, r, true, drops)
    ensures RowsOk(g, v)
  {
    var s := w.receiver;
    var row := RowOfId(s.files, r.fileId);
    var final := Naming.Reserve(s.disk.Keys, s.directory, s.files[row].fileName).value;
    AdmittedCarries(g, w, c, r, true);
    RF.OpenedInv(g.env, s, c, r, true, row, final);
    RR.HeadSplits(s, c, r, row, final, drops, R.OpenUpload(RR.HeadSeen(s, c), c, row, final));
    HeadRows(g, w, v, c, row, final);
  }

  lemma OpenStep(g: Setting, w: World, v: World, c: ConnId, row: nat, final: Text)
    requires RowsOk(g, w) && WireOk(w) && MailApart(w) && v == w.(receiver := v.receiver)
    requires c in w.receiver.conns && c !in w.receiver.uploads && c !in w.kept
    requires row < |w.receiver.files| && !IsDone(w.receiver.files[row])
    requires Carries(w, c) && Parcel(w, c).session == w.shown && RowOfId(w.receiver.files, Parcel(w, c).id) == row
    requires final + Naming.PART !in w.receiver.disk
    requires v.receiver == R.OpenUpload(w.receiver, c, row, final)
    ensures RowsOk(g, v) && WireOk(v) && MailApart(v)
  {
    RowsOpened(g, w, v, c, row, final);
  }

  /** What arrived of a block is the next part of the body. */
  ghost predicate NextPart(g: Setting, w: World, c: ConnId, data: seq<Byte>)
    requires c in w.receiver.conns && Carries(w, c)
  {
    var from := w.receiver.conns[c].received;
    from + |data| <= |Body(g, w, c)| && data == Body(g, w, c)[from..from + |data|]
  }

  /** `c` has a file open, and everything that came for it is in there. */
  predicate Streaming(s: R.Service, c: ConnId) {
    && c in s.uploads && c in s.conns && s.conns[c].sink.Some?
    && s.conns[c].sink.value.part == s.uploads[c].part && s.uploads[c].part in s.disk
    && s.conns[c].received == |s.disk[s.uploads[c].part]|
  }

  lemma UploadStreams(s: R.Service, c: ConnId)
    requires c in s.uploads && RI.UploadOk(s, c) && !s.conns[c].answered
    ensures Streaming(s, c)
  {
  }

  lemma WrittenWire(w: World, u: World, c: ConnId, data: seq<Byte>)
    requires WireOk(w) && SameMail(w, u) && u.kept == w.kept && Streaming(w.receiver, c)
    requires u.receiver == R.Written(w.receiver, c, data)
    ensures WireOk(u) && (RI.PartsApart(w.receiver.uploads) ==> RI.PartsApart(u.receiver.uploads))
    ensures c in u.receiver.conns && c in u.receiver.uploads
  {
  }

  lemma BlockRows(g: Setting, w: World, u: World, c: ConnId, data: seq<Byte>)
    requires RowsHold(g, w) && u == w.(receiver := u.receiver)
    requires Streaming(w.receiver, c) && RI.PartsApart(w.receiver.uploads)
    requires Carries(w, c) && NextPart(g, w, c, data)
    requires u.receiver == R.Written(w.receiver, c, data)
    ensures RowsHold(g, u)
  {
    assert Writing(g, w, c);
    RowsWritten(g, w, u, c, data);
    WrittenWire(w, u, c, data);
  }

  lemma PrefixOfBlock(g: Setting, w: World, c: ConnId, data: seq<Byte>, taken: nat)
    requires c in w.receiver.conns && Carries(w, c) && NextPart(g, w, c, data) && taken <= |data|
    ensures NextPart(g, w, c, data[..taken])
  {
    var body, from := Body(g, w, c), w.receiver.conns[c].received;
    assert data[..taken] == body[from..from + taken];
  }

  /** What is left of `s` once the body of `c` has been kept. */
  function Keeping(s: R.Service, c: ConnId, renames: bool): R.Service
    requires c in s.conns && c in s.uploads && s.uploads[c].part in s.disk
  {
    R.Settle(s.(conns := s.conns[c := s.conns[c].(complete := true)], uploads := s.uploads - {c}), s.uploads[c], renames)
  }

  lemma EndRows(g: Setting, w: World, u: World, c: ConnId, renames: bool)
    requires RowsHold(g, w) && c in w.receiver.uploads && RI.UploadOk(w.receiver, c) && RI.PartsApart(w.receiver.uploads)
    requires u == w.(receiver := Keeping(w.receiver, c, renames),
                     kept := w.kept[c := R.KeptPath(w.receiver, w.receiver.uploads[c], renames)])
    ensures RowsHold(g, u)
  {
    assert Writing(g, w, c);
    RowsSettled(g, w, u, c, renames);
    SettledWire(w, u, c);
  }

  lemma SettledWire(w: World, u: World, c: ConnId)
    requires WireOk(w) && Carries(w, c) && SameMail(w, u) && u.kept.Keys == w.kept.Keys + {c}
    requires u.receiver.uploads == w.receiver.uploads - {c}
    ensures WireOk(u)
  {
  }

  /** The new rows of another session are nobody's yet. */
  lemma AfreshRows(g: Setting, w: World, e: R.Event, drops: set<ConnId>, v: World)
    requires Stepped(g, w, e, drops, v) && RF.Replaces(w.receiver, e)
    ensures v.shown in v.grants ==> RowsOk(g, v)
  {
    RF.NextAfresh(g.env, w.receiver, e, drops);
    if v.shown in v.grants {
      assert v.shown == v.receiver.session > w.receiver.issued;
      forall c | c in v.kept && Carries(v, c)
        ensures Parcel(v, c).session != v.shown
      {
        assert Spent(w, Parcel(w, c).session);
      }
    }
  }

  /** Outside the sender's sessions nothing is claimed about rows, and inside them they are kept. */
  lemma NextRows(g: Setting, w: World, e: R.Event, drops: set<ConnId>, v: World)
    requires Stepped(g, w, e, drops, v)
    ensures v.shown in v.grants ==> RowsOk(g, v)
  {
    if RF.Replaces(w.receiver, e) {
      AfreshRows(g, w, e, drops, v);
    } else {
      RF.NextSteady(g.env, w.receiver, e, drops);
      assert v.shown == w.shown && v.grants == w.grants;
      if v.shown in v.grants {
        if RR.Stirs(g.env, w.receiver, e) {
          StirRows(g, w, e, drops, v);
        } else {
          RR.NextQuiet(g.env, w.receiver, e, drops);
          RowsQuiet(g, w, v, RR.Winners(w.receiver, e));
        }
      }
    }
  }

  lemma BlockStir(g: Setting, w: World, u: World, v: World, c: ConnId, data: seq<Byte>)
    requires RowsHold(g, w) && SameMail(w, v) && v.kept == w.kept && RI.PartsApart(w.receiver.uploads)
    requires Streaming(w.receiver, c) && Carries(w, c) && NextPart(g, w, c, data)
    requires u == w.(receiver := u.receiver) && u.receiver == R.Written(w.receiver, c, data)
    requires RR.Quiet(u.receiver, v.receiver, {})
    ensures RowsOk(g, v)
  {
    BlockRows(g, w, u, c, data);
    RowsQuiet(g, u, v, {});
  }

  lemma BlockQuiet(w: World, c: ConnId, data: seq<Byte>, taken: nat, drops: set<ConnId>)
    requires WireOk(w) && Streaming(w.receiver, c) && RI.PartsApart(w.receiver.uploads) && taken <= |data|
    requires w.receiver.conns[c].received + |data| <= w.receiver.conns[c].sink.value.ceiling
    ensures RR.Quiet(R.Written(w.receiver, c, data[..taken]), R.UploadData(w.receiver, c, data, taken, drops), {})
  {
    var t := R.Written(w.receiver, c, data[..taken]);
    WrittenWire(w, w.(receiver := t), c, data[..taken]);
    RR.BlockSplits(w.receiver, c, data, taken, drops, t);
  }

  /** The next part of the body is what the sender's connection delivers. */
  lemma GenuineIsNext(g: Setting, w: World, c: ConnId, data: seq<Byte>, taken: nat)
    requires Genuine(g, w, R.Block(c, data, taken)) && c in w.receiver.conns && Carries(w, c)
    ensures NextPart(g, w, c, data)
  {
  }

  lemma UnderWay(g: Setting, w: World, c: ConnId)
    requires RI.UploadsOk(w.receiver) && RowsOk(g, w) && c in w.receiver.uploads && !w.receiver.conns[c].answered
    ensures Streaming(w.receiver, c) && Carries(w, c)
  {
    assert RI.UploadOk(w.receiver, c) && Writing(g, w, c);
    UploadStreams(w.receiver, c);
  }

  lemma BlockFacts(g: Setting, w: World, e: R.Event, drops: set<ConnId>, v: World)
    requires Stepped(g, w, e, drops, v) && e.Block? && RR.Stirs(g.env, w.receiver, e) && w.shown in w.grants
    ensures Streaming(w.receiver, e.c) && Carries(w, e.c) && NextPart(g, w, e.c, e.data)
  {
    UnderWay(g, w, e.c);
    GenuineIsNext(g, w, e.c, e.data, e.taken);
  }

  lemma BlockCase(g: Setting, w: World, e: R.Event, drops: set<ConnId>, v: World)
    requires Stepped(g, w, e, drops, v) && e.Block? && RR.Stirs(g.env, w.receiver, e)
    requires v.shown == w.shown && w.shown in w.grants
    ensures RowsOk(g, v)
  {
    BlockFacts(g, w, e, drops, v);
    BlockQuiet(w, e.c, e.data, e.taken, drops);
    PrefixOfBlock(g, w, e.c, e.data, e.taken);
    BlockStir(g, w, w.(receiver := R.Written(w.receiver, e.c, e.data[..e.taken])), v, e.c, e.data[..e.taken]);
  }

  lemma HeadCase(g: Setting, w: World, e: R.Event, drops: set<ConnId>, v: World)
    requires Stepped(g, w, e, drops, v) && e.UploadHeaders? && RR.Stirs(g.env, w.receiver, e)
    requires v.shown == w.shown && w.shown in w.grants
    ensures RowsOk(g, v)
  {
    HeadStir(g, w, v, e.c, e.request, drops);
  }

  lemma EndStir(g: Setting, w: World, e: R.Event, drops: set<ConnId>, v: World)
    requires Stepped(g, w, e, drops, v) && e.BodyEnd? && RR.Stirs(g.env, w.receiver, e)
    requires v.shown == w.shown && w.shown in w.grants
    ensures RowsOk(g, v)
  {
    assert RI.UploadOk(w.receiver, e.c) && Writing(g, w, e.c);
    var u := w.(receiver := Keeping(w.receiver, e.c, e.renames), kept := v.kept);
    EndRows(g, w, u, e.c, e.renames);
    RR.EndSplits(g.env, w.receiver, e, drops, u.receiver);
    RowsQuiet(g, u, v, {e.c});
  }

  lemma StirRows(g: Setting, w: World, e: R.Event, drops: set<ConnId>, v: World)
    requires Stepped(g, w, e, drops, v) && !RF.Replaces(w.receiver, e) && RR.Stirs(g.env, w.receiver, e)
    requires v.shown == w.shown && w.shown in w.grants
    ensures RowsOk(g, v)
  {
    match e
    case UploadHeaders(_, _, _) => HeadCase(g, w, e, drops, v);
    case Block(_, _, _) => BlockCase(g, w, e, drops, v);
    case BodyEnd(_, _) => EndStir(g, w, e, drops, v);
    case _ =>
  }
}
