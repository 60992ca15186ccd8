/** Under what names files are asked for, received and kept. */
module EndToEndNames {
  import opened Transfers
  import opened EndToEnd
  import opened EndToEndReceiver
  import opened EndToEndTables
  import opened EndToEndRun
  import opened EndToEndSafety
  import S = Send
  import SI = SendInvariant
  import SS = SendSteps
  import R = Receive
  import RI = ReceiveInvariant
  import RR = ReceiveRows
  import RF = ReceiveFrame
  import RN = ReceiveNames
  import RD = ReceiveDisk
  import Naming
  import Bytes

  /** What a file is called once it has been offered. */
  function NameOf(fileName: Text): Text {
    if fileName == [] then R.FILE else fileName
  }

  ghost predicate Offers(m: S.Request, id: Text, name: Text) {
    m.Prepare? && exists k: nat :: k < |m.offers| && m.offers[k].id == id && NameOf(m.offers[k].fileName) == name
  }

  /** Every row was asked for under its id and name. */
  ghost predicate RowsOffered(files: seq<FileEntry>, m: S.Request) {
    forall j: nat :: j < |files| ==> Offers(m, files[j].id, files[j].fileName)
  }

  /** The request that a session was opened for. */
  ghost predicate Opened(w: World, session: Secret) {
    session in w.grants && w.grants[session].reply in w.mail
  }

  function Asked(w: World, session: Secret): S.Request
    requires session in w.grants && w.grants[session].reply in w.mail
  {
    w.mail[w.grants[session].reply]
  }

  /** What `c` brought was offered under the probe's name. */
  ghost predicate BroughtAsProbe(w: World, c: ConnId)
    requires Carries(w, c)
  {
    && Opened(w, Parcel(w, c).session)
    && exists name :: Offers(Asked(w, Parcel(w, c).session), Parcel(w, c).id, name) && RN.LikeProbe(name)
  }

  ghost predicate PendingOffered(w: World) {
    w.receiver.pending.Some? && w.receiver.pending.value in w.wire && w.wire[w.receiver.pending.value] in w.mail ==>
      RowsOffered(w.receiver.files, w.mail[w.wire[w.receiver.pending.value]])
  }

  ghost predicate ShownOffered(w: World) {
    w.shown in w.grants ==> Opened(w, w.shown) && RowsOffered(w.receiver.files, Asked(w, w.shown))
  }

  ghost predicate KeptOffered(w: World) {
    forall c :: c in w.kept && Carries(w, c) && RD.ProbeNamed(w.kept[c]) ==> BroughtAsProbe(w, c)
  }

  ghost predicate ReceivedNames(w: World) {
    RN.AllNamed(w.receiver) && PendingOffered(w) && ShownOffered(w) && KeptOffered(w)
  }

  // --- at the receiver --------------------------------------------------------------------------

  lemma OfferedStill(a: seq<FileEntry>, b: seq<FileEntry>, m: S.Request)
    requires RowsOffered(a, m) && RN.SameNames(a, b)
    ensures RowsOffered(b, m)
  {
    forall j: nat | j < |b|
      ensures Offers(m, b[j].id, b[j].fileName)
    {
      assert Offers(m, a[j].id, a[j].fileName);
    }
  }

  lemma DescribedOffers(offers: seq<S.Offer>, d: R.Descriptor) returns (k: nat)
    requires d in multiset(Described(offers))
    ensures k < |offers| && d == R.Descriptor(offers[k].id, offers[k].fileName, offers[k].size, [])
  {
    k :| k < |offers| && Described(offers)[k] == d;
  }

  /** The rows made from a request are called what was asked for. */
  lemma EntriesOffered(files: seq<R.Descriptor>, m: S.Request)
    requires m.Prepare? && multiset(files) == multiset(Described(m.offers))
    ensures RowsOffered(R.EntriesOf(files), m)
  {
    forall j: nat | j < |files|
      ensures Offers(m, R.EntriesOf(files)[j].id, R.EntriesOf(files)[j].fileName)
    {
      assert files[j] in multiset(files);
      var k := DescribedOffers(m.offers, files[j]);
      EntryNamed(files[j]);
    }
  }

  lemma EntryNamed(d: R.Descriptor)
    ensures R.EntryOf(d).id == d.id && R.EntryOf(d).fileName == NameOf(d.fileName)
  {
  }

  lemma NextPendingOffered(g: Setting, w: World, e: R.Event, drops: set<ConnId>, v: World)
    requires Stepped(g, w, e, drops, v) && PendingOffered(w)
    ensures PendingOffered(v)
  {
    if RF.Replaces(w.receiver, e) {
      RF.NextAfresh(g.env, w.receiver, e, drops);
      RN.NewNames(g.env, w.receiver, e, drops);
      if v.receiver.pending.Some? && e.c in w.wire && w.wire[e.c] in w.mail {
        EntriesOffered(e.prepare.files, w.mail[w.wire[e.c]]);
        OfferedStill(R.EntriesOf(e.prepare.files), v.receiver.files, w.mail[w.wire[e.c]]);
      }
    } else {
      RF.NextSteady(g.env, w.receiver, e, drops);
      RN.NextNames(g.env, w.receiver, e, drops);
      if v.receiver.pending.Some? && v.receiver.pending.value in w.wire && w.wire[v.receiver.pending.value] in w.mail {
        OfferedStill(w.receiver.files, v.receiver.files, w.mail[w.wire[v.receiver.pending.value]]);
      }
    }
  }

  /** A session that starts was opened for a request of the sender. */
  lemma NewOpening(w: World, e: R.Event, t: R.Service, v: World)
    requires TablesOk(w) && WireOk(w) && RF.Replaces(w.receiver, e) && RF.Afresh(w.receiver, t) && w.receiver.session == 0
    requires v.grants == GrantsAfter(w, e, t) && v.shown == ShownAfter(w, e, t) && v.shown in v.grants
    ensures Opener(w, e).Some? && Opener(w, e).value in w.wire && w.wire[Opener(w, e).value] in w.mail
    ensures v.grants[v.shown].reply == w.wire[Opener(w, e).value]
  {
  }

  /** And its rows come from that request. */
  lemma NewRows(g: Setting, w: World, e: R.Event, files: seq<FileEntry>)
    requires Genuine(g, w, e) && PendingOffered(w) && RF.Replaces(w.receiver, e)
    requires Opener(w, e).Some? && Opener(w, e).value in w.wire && w.wire[Opener(w, e).value] in w.mail
    requires RN.SameNames(if e.PrepareRequest? then R.EntriesOf(e.prepare.files) else w.receiver.files, files)
    ensures RowsOffered(files, w.mail[w.wire[Opener(w, e).value]])
  {
    var m := w.mail[w.wire[Opener(w, e).value]];
    if e.PrepareRequest? {
      EntriesOffered(e.prepare.files, m);
      OfferedStill(R.EntriesOf(e.prepare.files), files, m);
    } else {
      OfferedStill(w.receiver.files, files, m);
    }
  }

  lemma NewShown(g: Setting, w: World, e: R.Event, drops: set<ConnId>, v: World)
    requires Stepped(g, w, e, drops, v) && PendingOffered(w) && RF.Replaces(w.receiver, e) && v.shown in v.grants
    ensures ShownOffered(v)
  {
    RF.NextAfresh(g.env, w.receiver, e, drops);
    RN.NewNames(g.env, w.receiver, e, drops);
    NewOpening(w, e, v.receiver, v);
    NewRows(g, w, e, v.receiver.files);
  }

  lemma NextShownOffered(g: Setting, w: World, e: R.Event, drops: set<ConnId>, v: World)
    requires Stepped(g, w, e, drops, v) && PendingOffered(w) && ShownOffered(w)
    ensures ShownOffered(v)
  {
    if v.shown in v.grants {
      if RF.Replaces(w.receiver, e) {
        NewShown(g, w, e, drops, v);
      } else {
        RF.NextSteady(g.env, w.receiver, e, drops);
        RN.NextNames(g.env, w.receiver, e, drops);
        assert v.shown == w.shown && v.grants == w.grants;
        OfferedStill(w.receiver.files, v.receiver.files, Asked(w, w.shown));
      }
    }
  }

  /** A body is kept under the probe's name only if its file was offered under it. */
  lemma KeptComesOffered(g: Setting, w: World, c: ConnId, renames: bool)
    requires ReceiverOk(g, w) && ReceivedNames(w) && Carries(w, c) && c in w.receiver.uploads
    requires RD.ProbeNamed(R.KeptPath(w.receiver, w.receiver.uploads[c], renames))
    ensures BroughtAsProbe(w, c)
  {
    var s, u := w.receiver, w.receiver.uploads[c];
    assert RI.UploadOk(s, c) && Writing(g, w, c) && RN.Named(u, s.files);
    RN.PartNotProbe(u.final);
    assert RD.ProbeNamed(u.final);
    assert Offers(Asked(w, w.shown), s.files[u.row].id, s.files[u.row].fileName);
  }

  lemma BroughtStill(w: World, v: World, c: ConnId)
    requires Carries(w, c) && Carries(v, c) && Parcel(v, c) == Parcel(w, c) && BroughtAsProbe(w, c)
    requires forall k :: k in w.grants ==> k in v.grants && v.grants[k] == w.grants[k]
    requires forall q :: q in w.mail ==> q in v.mail && v.mail[q] == w.mail[q]
    ensures BroughtAsProbe(v, c)
  {
  }

  lemma KeptSince(g: Setting, w: World, e: R.Event, drops: set<ConnId>, v: World, c: ConnId)
    requires Stepped(g, w, e, drops, v) && ReceivedNames(w) && c in v.kept && Carries(v, c) && RD.ProbeNamed(v.kept[c])
    ensures BroughtAsProbe(w, c)
  {
    if c in w.kept {
      KeptUntouched(g, w, e, drops, v, c);
    } else {
      KeptComesOffered(g, w, c, e.renames);
    }
  }

  lemma NextKeptOffered(g: Setting, w: World, e: R.Event, drops: set<ConnId>, v: World)
    requires Stepped(g, w, e, drops, v) && ReceivedNames(w)
    ensures KeptOffered(v)
  {
    forall c | c in v.kept && Carries(v, c) && RD.ProbeNamed(v.kept[c])
      ensures BroughtAsProbe(v, c)
    {
      KeptSince(g, w, e, drops, v, c);
      NextGrants(g, w, e, drops, v);
      BroughtStill(w, v, c);
    }
  }

  lemma NextAllNamed(env: R.Env, s: R.Service, e: R.Event, drops: set<ConnId>)
    requires RI.Inv(env, s) && R.Enabled(s, e) && RN.AllNamed(s)
    ensures RN.AllNamed(R.Next(env, s, e, drops))
  {
    if RF.Replaces(s, e) {
      RN.NewNames(env, s, e, drops);
    } else {
      RN.NextNames(env, s, e, drops);
      RN.StillNamed(s, R.Next(env, s, e, drops));
    }
  }

  lemma ReceiverNames(g: Setting, w: World, e: R.Event, drops: set<ConnId>, v: World)
    requires Stepped(g, w, e, drops, v) && ReceivedNames(w)
    ensures ReceivedNames(v)
  {
    NextAllNamed(g.env, w.receiver, e, drops);
    NextPendingOffered(g, w, e, drops, v);
    NextShownOffered(g, w, e, drops, v);
    NextKeptOffered(g, w, e, drops, v);
  }

  lemma ReachesNames(g: Setting, w: World, v: World, c: ConnId, q: ReplyId, conn: R.Conn)
    requires Reached(g, w, v, c, q, conn) && ReceivedNames(w)
    ensures ReceivedNames(v)
  {
    SameOtherwise(g, w, v, c, q, conn);
    assert RN.AllNamed(v.receiver) by {
      forall d | d in v.receiver.uploads
        ensures RN.Named(v.receiver.uploads[d], v.receiver.files)
      {
        assert RN.Named(w.receiver.uploads[d], w.receiver.files);
      }
    }
    forall d | d in v.kept && Carries(v, d) && RD.ProbeNamed(v.kept[d])
      ensures BroughtAsProbe(v, d)
    {
      BroughtStill(w, v, d);
    }
  }

  // --- at the sender ----------------------------------------------------------------------------

  /** The rows were offered as they are. */
  ghost predicate OfferedAs(m: S.Request, files: seq<FileEntry>) {
    && m.Prepare? && |m.offers| == |files|
    && forall i :: 0 <= i < |files| ==> m.offers[i].id == files[i].id && m.offers[i].fileName == files[i].fileName
  }

  /** The run got a session, and something may come of it. */
  ghost predicate Running(s: S.Sender) {
    (s.busy && s.uploading) || exists i :: 0 <= i < |s.files| && IsDone(s.files[i])
  }

  ghost predicate SentNames(w: World) {
    Running(w.sender) ==> Opened(w, w.run) && OfferedAs(Asked(w, w.run), w.sender.files)
  }

  lemma MailStays(w: World, v: World)
    requires Known(w) && AtOneEnd(w, v)
    ensures forall q :: q in w.mail ==> q in v.mail && v.mail[q] == w.mail[q]
  {
  }

  lemma SenderElsewhere(w: World, v: World)
    requires WireOk(w) && Known(w) && AtOneEnd(w, v) && ReceivedNames(w)
    ensures ReceivedNames(v)
  {
    MailStays(w, v);
    SameBodies(w, v);
    forall c | c in v.kept && Carries(v, c) && RD.ProbeNamed(v.kept[c])
      ensures BroughtAsProbe(v, c)
    {
      BroughtStill(w, v, c);
    }
    PendingCarried(w, v);
  }

  lemma PendingCarried(w: World, v: World)
    requires WireOk(w) && Known(w) && AtOneEnd(w, v) && PendingOffered(w)
    ensures PendingOffered(v)
  {
    MailStays(w, v);
  }

  lemma RunsOn(w: World, v: World)
    requires Known(w) && AtOneEnd(w, v) && v.run == w.run && SentNames(w) && Running(w.sender)
    requires RN.SameNames(w.sender.files, v.sender.files)
    ensures SentNames(v)
  {
    MailStays(w, v);
  }

  lemma SameFilesNames(a: seq<FileEntry>, b: seq<FileEntry>)
    requires SS.SameFiles(a, b)
    ensures RN.SameNames(a, b)
    ensures (exists i :: 0 <= i < |b| && IsDone(b[i])) ==> exists i :: 0 <= i < |a| && IsDone(a[i])
  {
    if exists i :: 0 <= i < |b| && IsDone(b[i]) {
      var i :| 0 <= i < |b| && IsDone(b[i]);
      assert SS.Kin(a[i], b[i]);
    }
  }

  /** The same rows, and no run begun. */
  lemma QuietNames(w: World, v: World)
    requires Known(w) && AtOneEnd(w, v) && v.run == w.run && SentNames(w)
    requires SS.SameFiles(w.sender.files, v.sender.files)
    requires v.sender.busy && v.sender.uploading ==> w.sender.busy && w.sender.uploading
    ensures SentNames(v)
  {
    SameFilesNames(w.sender.files, v.sender.files);
    if Running(v.sender) { RunsOn(w, v); }
  }

  lemma StartedNames(s: S.Sender, opens: set<nat>)
    requires !s.cancelled
    ensures RN.SameNames(s.files, S.StartNextFile(s, opens).files)
  {
    SS.StartSteps(s, opens);
    SameFilesNames(s.files, S.StartNextFile(s, opens).files);
  }

  lemma UploadNames(w: World, e: S.Event, v: World)
    requires Known(w) && SI.Inv(w.sender) && S.Enabled(w.sender, e) && e.UploadAnswered? && v == ToSender(w, e)
    requires AtOneEnd(w, v) && SentNames(w)
    ensures SentNames(v)
  {
    var s := w.sender;
    assert SI.Uploading(s);
    var t := S.Taken(s, e.id).(files := WithStatus(s.files, s.currentRow, Verdict(e)));
    StartedNames(t, e.opens);
    SS.FailSame(t);
    SameFilesNames(t.files, S.Fail(t).files);
    assert RN.SameNames(s.files, t.files);
    RunsOn(w, v);
  }

  lemma GrantNames(g: Setting, w: World, e: S.Event, v: World)
    requires WireOk(w) && TablesOk(w) && MailSpent(w) && SenderOk(w)
    requires S.Enabled(w.sender, e) && Plausible(g, w, e) && e.PrepareAnswered? && v == ToSender(w, e) && AtOneEnd(w, v)
    requires e.grant.Some? && e.status == 200 && e.grant.value.tokens != map[] && S.AnyGranted(w.sender.files, e.grant.value)
    ensures SentNames(v)
  {
    var mid := Granting(w, e);
    AskingAnswered(w, e);
    GrantIsNew(g, w, e);
    GrantNext(w, e, mid, v);
    SS.GrantSame(w.sender.files, e.grant.value);
    SameFilesNames(w.sender.files, mid.sender.files);
    StartedNames(mid.sender, e.opens);
    MailStays(w, v);
    assert w.mail[e.id] == S.Request.Prepare(S.OffersOf(w.sender.files));
    assert OfferedAs(w.mail[e.id], w.sender.files);
  }

  lemma RefusedNames(w: World, e: S.Event, v: World)
    requires SI.Inv(w.sender) && S.Enabled(w.sender, e) && e.PrepareAnswered? && v == ToSender(w, e)
    requires !(e.grant.Some? && e.status == 200 && e.grant.value.tokens != map[] && S.AnyGranted(w.sender.files, e.grant.value))
    ensures SentNames(v)
  {
    AskingAnswered(w, e);
    RefusedSame(w, e, v.sender);
    assert !Running(v.sender);
  }

  lemma SendsNames(w: World, e: S.Event, v: World)
    requires Known(w) && e.UserSends? && v == ToSender(w, e) && AtOneEnd(w, v) && SentNames(w)
    ensures SentNames(v)
  {
    SI.EntriesWaiting(e.sources, |e.sources|);
    if v.sender == w.sender {
      QuietNames(w, v);
    } else {
      assert !Running(v.sender);
    }
  }

  lemma UserNames(w: World, e: S.Event, v: World)
    requires Known(w) && S.Enabled(w.sender, e) && v == ToSender(w, e) && AtOneEnd(w, v) && SentNames(w)
    requires e.UserEntersPin? || e.UserCancels? || e.Progress?
    ensures SentNames(v)
  {
    SS.CancelSame(w.sender);
    QuietNames(w, v);
  }

  lemma SenderNames(g: Setting, w: World, e: S.Event, v: World)
    requires Inv(g, w) && S.Enabled(w.sender, e) && Plausible(g, w, e) && v == ToSender(w, e) && SentNames(w)
    ensures SentNames(v)
  {
    SenderStep(g, w, e, v);
    match e
    case PrepareAnswered(_, status, grant, _) =>
      if grant.Some? && status == 200 && grant.value.tokens != map[] && S.AnyGranted(w.sender.files, grant.value) {
        GrantNames(g, w, e, v);
      } else {
        RefusedNames(w, e, v);
      }
    case UploadAnswered(_, _, _, _) => UploadNames(w, e, v);
    case UserSends(_, _, _) => SendsNames(w, e, v);
    case _ => UserNames(w, e, v);
  }
}
