/** The two ends together keep the invariant, over every run; and what it says. */
module EndToEndSafety {
  import opened Transfers
  import opened EndToEnd
  import opened EndToEndTables
  import opened EndToEndRun
  import S = Send
  import SI = SendInvariant
  import SS = SendSteps
  import SendIds
  import R = Receive
  import RI = ReceiveInvariant
  import RR = ReceiveRows
  import RD = ReceiveDisk
  import Bytes

  // --- one event at the sender -----------------------------------------------------------------

  /** A step through a world in between, in which nothing has gone out yet. */
  lemma Through(w: World, mid: World, v: World)
    requires AtOneEnd(w, mid) && mid.sender.issued == w.sender.issued && AtOneEnd(mid, v) && Novel(mid, v)
    requires mid.run == v.run
    ensures AtOneEnd(w, v) && Novel(w, v)
  {
  }

  lemma StartedFlight(s: S.Sender, opens: set<nat>)
    requires !s.cancelled
    ensures SS.FlightStep(s, S.StartNextFile(s, opens))
  {
    SS.StartSteps(s, opens);
  }

  /** The world once the answered row is settled and before anything else. */
  function Answering(w: World, q: ReplyId, status: FileStatus): World {
    w.(sender := S.Taken(w.sender, q).(files := WithStatus(w.sender.files, w.sender.currentRow, status)))
  }

  function Verdict(e: S.Event): FileStatus
    requires e.UploadAnswered?
  {
    if S.Success(e.status, e.error) then FileDone else FileFailed
  }

  lemma AnsweringIs(w: World, e: S.Event, mid: World)
    requires WireOk(w) && SI.Inv(w.sender) && S.Enabled(w.sender, e) && e.UploadAnswered? && mid == Answering(w, e.id, Verdict(e))
    ensures SI.Uploading(w.sender) && AtOneEnd(w, mid) && mid.sender.flight == map[] && WireOk(mid)
    ensures mid.sender.busy && mid.sender.uploading && !mid.sender.cancelled && mid.sender.session != 0
  {
    assert SI.Uploading(w.sender);
  }

  lemma UploadSettles(g: Setting, w: World, e: S.Event, mid: World)
    requires Inv(g, w) && S.Enabled(w.sender, e) && Plausible(g, w, e) && e.UploadAnswered?
    requires mid == Answering(w, e.id, Verdict(e))
    ensures RunOk(mid) && Known(mid)
  {
    AnsweringIs(w, e, mid);
    if S.Success(e.status, e.error) { SuccessIsKept(g, w, e.id, e.status); }
    AnswerRun(g, w, mid, e.id, Verdict(e));
  }

  lemma UploadGoesOn(w: World, mid: World, v: World, opens: set<nat>)
    requires AtOneEnd(w, mid) && RunOk(mid) && Known(mid) && WireOk(mid) && mid.sender.issued == w.sender.issued
    requires mid.sender.busy && mid.sender.uploading && !mid.sender.cancelled && mid.sender.session != 0
    requires v == mid.(sender := S.StartNextFile(mid.sender, opens), mail := Sent(mid, v.sender))
    ensures AtOneEnd(w, v) && Novel(w, v) && RunOk(v)
  {
    StartedFlight(mid.sender, opens);
    StartRun(mid, v, opens);
    Through(w, mid, v);
  }

  lemma UploadStops(w: World, mid: World, v: World)
    requires AtOneEnd(w, mid) && RunOk(mid) && Known(mid) && WireOk(mid) && mid.sender.issued == w.sender.issued
    requires v == mid.(sender := S.Fail(mid.sender))
    ensures AtOneEnd(w, v) && Novel(w, v) && RunOk(v)
  {
    SS.FailSame(mid.sender);
    QuietRun(mid, v);
    Through(w, mid, v);
  }

  lemma UploadCase(g: Setting, w: World, e: S.Event, v: World)
    requires Inv(g, w) && S.Enabled(w.sender, e) && Plausible(g, w, e) && e.UploadAnswered? && v == ToSender(w, e)
    ensures AtOneEnd(w, v) && Novel(w, v) && RunOk(v)
  {
    var mid := Answering(w, e.id, Verdict(e));
    AnsweringIs(w, e, mid);
    UploadSettles(g, w, e, mid);
    if e.status == 409 && Verdict(e).FileFailed? {
      UploadStops(w, mid, v);
    } else {
      UploadGoesOn(w, mid, v, e.opens);
    }
  }

  lemma AskingAnswered(w: World, e: S.Event)
    requires SI.Inv(w.sender) && S.Enabled(w.sender, e) && e.PrepareAnswered?
    ensures SI.Asking(w.sender) && S.Taken(w.sender, e.id).flight == map[] && e.id < w.sender.issued
    ensures !w.sender.cancelled && w.sender.busy && SI.AllWaiting(w.sender.files) && w.sender.session == 0
  {
    var s := w.sender;
    assert SI.Asking(s);
    assert S.Taken(s, e.id).flight == map[];
  }

  /** The sender once a grant is taken up and before any file goes out. */
  function Granting(w: World, e: S.Event): World
    requires e.PrepareAnswered? && e.grant.Some?
  {
    var grant := e.grant.value;
    w.(sender := S.Taken(w.sender, e.id).(session := grant.session, files := S.GrantAll(w.sender.files, grant),
                                          state := State.Active, currentRow := -1, uploading := true),
       run := grant.session)
  }

  lemma GrantedFlight(w: World, e: S.Event, mid: World)
    requires e.PrepareAnswered? && e.grant.Some? && mid == Granting(w, e) && S.Taken(w.sender, e.id).flight == map[]
    ensures AtOneEnd(w, mid) && mid.sender.flight == map[] && mid.sender.issued == w.sender.issued
  {
  }

  /** The grant is one that the receiver gave, and was not taken up before. */
  lemma GrantIsNew(g: Setting, w: World, e: S.Event)
    requires Plausible(g, w, e) && TablesOk(w) && MailSpent(w) && e.PrepareAnswered? && e.grant.Some? && e.id in w.sender.flight
    ensures e.grant.value.session != 0 && e.grant.value.session in w.grants && w.grants[e.grant.value.session].reply == e.id
    ensures forall p :: p in w.mail && w.mail[p].Upload? ==> w.mail[p].session != e.grant.value.session
  {
    forall p | p in w.mail && w.mail[p].Upload?
      ensures w.mail[p].session != e.grant.value.session
    {
      assert Spent(w, w.mail[p].session);
    }
  }

  /** Taking up a grant: nothing has gone out under its session. */
  lemma GrantRun(w: World, e: S.Event, mid: World)
    requires e.PrepareAnswered? && e.grant.Some? && mid == Granting(w, e) && mid.sender.flight == map[]
    requires e.grant.value.session in w.grants && w.grants[e.grant.value.session].reply == e.id < w.sender.issued
    requires forall p :: p in w.mail && w.mail[p].Upload? ==> w.mail[p].session != e.grant.value.session
    requires SendIds.IdsApart(w.sender.files) && SI.AllWaiting(w.sender.files)
    ensures RunOk(mid)
  {
    SS.GrantSame(w.sender.files, e.grant.value);
    IdsStay(w.sender.files, mid.sender.files);
    NoneDone(w.sender.files, mid.sender.files);
  }

  lemma GrantNext(w: World, e: S.Event, mid: World, v: World)
    requires S.Enabled(w.sender, e) && e.PrepareAnswered? && e.grant.Some? && !w.sender.cancelled
    requires e.status == 200 && e.grant.value.session != 0 && e.grant.value.tokens != map[]
    requires S.AnyGranted(w.sender.files, e.grant.value)
    requires mid == Granting(w, e) && v == ToSender(w, e)
    ensures v == mid.(sender := S.StartNextFile(mid.sender, e.opens), mail := Sent(mid, v.sender))
  {
  }

  lemma GrantTaken(g: Setting, w: World, e: S.Event, mid: World)
    requires WireOk(w) && TablesOk(w) && MailSpent(w) && SenderOk(w)
    requires S.Enabled(w.sender, e) && Plausible(g, w, e) && e.PrepareAnswered? && e.grant.Some? && mid == Granting(w, e)
    ensures AtOneEnd(w, mid) && RunOk(mid) && Known(mid) && WireOk(mid) && mid.sender.issued == w.sender.issued
    ensures mid.sender.busy && mid.sender.uploading && !mid.sender.cancelled && mid.sender.session != 0
  {
    AskingAnswered(w, e);
    GrantIsNew(g, w, e);
    GrantedFlight(w, e, mid);
    GrantRun(w, e, mid);
  }

  lemma GrantCase(g: Setting, w: World, e: S.Event, v: World)
    requires WireOk(w) && TablesOk(w) && MailSpent(w) && SenderOk(w)
    requires S.Enabled(w.sender, e) && Plausible(g, w, e) && e.PrepareAnswered? && v == ToSender(w, e)
    requires e.grant.Some? && e.status == 200 && e.grant.value.tokens != map[] && S.AnyGranted(w.sender.files, e.grant.value)
    ensures AtOneEnd(w, v) && Novel(w, v) && RunOk(v)
  {
    var mid := Granting(w, e);
    GrantTaken(g, w, e, mid);
    GrantNext(w, e, mid, v);
    UploadGoesOn(w, mid, v, e.opens);
  }

  /** Every other answer to prepare-upload sends nothing and leaves no row done. */
  lemma RefusedCase(g: Setting, w: World, e: S.Event, v: World)
    requires Inv(g, w) && S.Enabled(w.sender, e) && Plausible(g, w, e) && e.PrepareAnswered? && v == ToSender(w, e)
    requires !(e.grant.Some? && e.status == 200 && e.grant.value.tokens != map[] && S.AnyGranted(w.sender.files, e.grant.value))
    ensures AtOneEnd(w, v) && Novel(w, v) && RunOk(v)
  {
    AskingAnswered(w, e);
    RefusedSame(w, e, v.sender);
    IdsStay(w.sender.files, v.sender.files);
    NoDoneRun(w, v);
  }

  lemma RefusedSame(w: World, e: S.Event, t: S.Sender)
    requires S.Enabled(w.sender, e) && e.PrepareAnswered? && t == S.Next(w.sender, e)
    requires !w.sender.cancelled && SI.AllWaiting(w.sender.files) && w.sender.session == 0 && !w.sender.uploading
    requires !(e.grant.Some? && e.status == 200 && e.grant.value.tokens != map[] && S.AnyGranted(w.sender.files, e.grant.value))
    ensures SS.SameFiles(w.sender.files, t.files)
    ensures forall i :: 0 <= i < |t.files| ==> !IsDone(t.files[i])
    ensures t.issued == w.sender.issued && t.flight == S.Taken(w.sender, e.id).flight && !t.uploading
    ensures t.session == 0 || (e.grant.Some? && t.session == e.grant.value.session)
  {
    SS.FailSame(w.sender);
    assert S.Fail(w.sender).files == S.Fail(S.Taken(w.sender, e.id)).files;
    if e.grant.Some? {
      SS.GrantSame(w.sender.files, e.grant.value);
    }
    assert t.files == w.sender.files || t.files == S.Fail(w.sender).files
        || (e.grant.Some? && t.files == S.GrantAll(w.sender.files, e.grant.value));
    NoneDone(w.sender.files, t.files);
  }

  lemma NoneDone(a: seq<FileEntry>, b: seq<FileEntry>)
    requires SI.AllWaiting(a) && SS.SameFiles(a, b)
    ensures forall i :: 0 <= i < |b| ==> !IsDone(b[i])
  {
  }

  lemma PinCase(w: World, e: S.Event, v: World)
    requires WireOk(w) && SenderOk(w) && e.UserEntersPin? && SI.Polite(w.sender, e) && v == ToSender(w, e)
    ensures AtOneEnd(w, v) && Novel(w, v) && RunOk(v)
  {
    if w.sender.busy && !e.empty { SI.NothingOut(w.sender); }
    QuietRun(w, v);
  }

  lemma CancelCase(w: World, v: World)
    requires WireOk(w) && SenderOk(w) && v == ToSender(w, S.UserCancels)
    ensures AtOneEnd(w, v) && Novel(w, v) && RunOk(v)
  {
    SS.CancelSame(w.sender);
    QuietRun(w, v);
  }

  lemma ProgressCase(w: World, e: S.Event, v: World)
    requires WireOk(w) && SenderOk(w) && S.Enabled(w.sender, e) && e.Progress? && v == ToSender(w, e)
    ensures AtOneEnd(w, v) && Novel(w, v) && RunOk(v)
  {
    QuietRun(w, v);
  }

  lemma SendsCase(w: World, e: S.Event, v: World)
    requires WireOk(w) && SenderOk(w) && e.UserSends? && v == ToSender(w, e)
    ensures AtOneEnd(w, v) && Novel(w, v) && RunOk(v)
  {
    var s, t := w.sender, v.sender;
    SendIds.EntriesApart(e.sources, |e.sources|);
    SI.EntriesWaiting(e.sources, |e.sources|);
    if t == s {
      QuietRun(w, v);
    } else {
      assert s.session != 0 ==> Spent(v, s.session);
      NoDoneRun(w, v);
    }
  }

  /** Every event at the sender sends at most one request, and it is a new one. */
  lemma SenderStep(g: Setting, w: World, e: S.Event, v: World)
    requires Inv(g, w) && S.Enabled(w.sender, e) && Plausible(g, w, e) && v == ToSender(w, e)
    ensures AtOneEnd(w, v) && Novel(w, v) && RunOk(v)
  {
    match e
    case PrepareAnswered(_, status, grant, _) =>
      if grant.Some? && status == 200 && grant.value.tokens != map[] && S.AnyGranted(w.sender.files, grant.value) {
        GrantCase(g, w, e, v);
      } else {
        RefusedCase(g, w, e, v);
      }
    case UploadAnswered(_, _, _, _) => UploadCase(g, w, e, v);
    case UserSends(_, _, _) => SendsCase(w, e, v);
    case UserEntersPin(_) => PinCase(w, e, v);
    case UserCancels => CancelCase(w, v);
    case Progress(_, _) => ProgressCase(w, e, v);
  }

  lemma SenderKeeps(g: Setting, w: World, e: S.Event)
    requires Inv(g, w) && S.Enabled(w.sender, e) && Plausible(g, w, e)
    ensures Inv(g, ToSender(w, e))
  {
    var v := ToSender(w, e);
    SI.NextKeeps(w.sender, e);
    SenderStep(g, w, e, v);
    ReceiverStays(g, w, v);
  }

  // --- runs --------------------------------------------------------------------------------------

  /** Nobody has done anything yet; the receiver's folder holds whatever it holds. */
  function Start(disk: map<Text, seq<Byte>>): World {
    World(S.IDLE, RI.INITIAL.(disk := disk), map[], map[], map[], 0, 0, map[])
  }

  ghost function Take(g: Setting, w: World, e: Event): World {
    if Can(g, w, e) then After(g, w, e) else w
  }

  ghost function RunAll(g: Setting, w: World, events: seq<Event>): World
    decreases |events|
  {
    if events == [] then w else RunAll(g, Take(g, w, events[0]), events[1..])
  }

  lemma ReachesTurn(g: Setting, w: World, q: ReplyId, c: ConnId, address: Text)
    requires Inv(g, w) && Can(g, w, Reaches(q, c, address))
    ensures SenderOk(After(g, w, Reaches(q, c, address)))
  {
    var v := After(g, w, Reaches(q, c, address));
    var conn := R.Conn(address, true, false, false, false, Bytes.None, 0, []);
    ReachedIs(g, w, v, q, c, address, conn);
    SameOtherwise(g, w, v, c, q, conn);
    RunElsewhere(w, v);
  }

  lemma ReceiverTurn(g: Setting, w: World, e: R.Event, drops: set<ConnId>)
    requires Inv(g, w) && R.Enabled(w.receiver, e) && Genuine(g, w, e)
    ensures SenderOk(ToReceiver(g, w, e, drops))
  {
    GrantsStay(g, w, e, drops);
    RunElsewhere(w, ToReceiver(g, w, e, drops));
  }

  lemma TakeKeeps(g: Setting, w: World, e: Event)
    requires Inv(g, w) && Can(g, w, e)
    ensures Inv(g, After(g, w, e))
  {
    match e
    case AtSender(action) => SenderKeeps(g, w, action);
    case Reaches(q, c, address) =>
      ReachesKeeps(g, w, q, c, address);
      ReachesTurn(g, w, q, c, address);
    case AtReceiver(step, drops) =>
      ReceiverKeeps(g, w, step, drops);
      ReceiverTurn(g, w, step, drops);
  }

  /** What the receiver has kept and granted only grows. */
  lemma GrantsStay(g: Setting, w: World, e: R.Event, drops: set<ConnId>)
    requires ReceiverOk(g, w) && R.Enabled(w.receiver, e) && Genuine(g, w, e)
    ensures var v := ToReceiver(g, w, e, drops);
            && (forall k :: k in w.grants ==> k in v.grants && v.grants[k] == w.grants[k])
            && (forall c :: c in w.kept ==> c in v.kept)
  {
    NextGrants(g, w, e, drops, ToReceiver(g, w, e, drops));
  }

  lemma RunElsewhere(w: World, v: World)
    requires SenderOk(w) && v.sender == w.sender && v.mail == w.mail && v.run == w.run
    requires forall c :: c in w.kept ==> c in v.kept
    requires forall c :: c in w.kept && Carries(w, c) ==> Carries(v, c) && Parcel(v, c) == Parcel(w, c)
    requires forall k :: k in w.grants ==> k in v.grants && v.grants[k] == w.grants[k]
    ensures SenderOk(v)
  {
    forall i | 0 <= i < |v.sender.files| && IsDone(v.sender.files[i])
      ensures Backed(v, v.sender.files[i])
    {
      var f := w.sender.files[i];
      assert Backed(w, f);
      var c :| c in w.kept && Carries(w, c) && Parcel(w, c).session == w.run
               && Parcel(w, c).id == f.id && Parcel(w, c).path == f.localPath;
      assert c in v.kept && Carries(v, c);
    }
  }

  lemma StartInv(g: Setting, disk: map<Text, seq<Byte>>)
    ensures Inv(g, Start(disk))
  {
    RI.InitialInv(g.env, disk);
  }

  lemma {:induction false} RunKeeps(g: Setting, w: World, events: seq<Event>)
    requires Inv(g, w)
    ensures Inv(g, RunAll(g, w, events))
    decreases |events|
  {
    if events != [] {
      if Can(g, w, events[0]) {
        TakeKeeps(g, w, events[0]);
      }
      RunKeeps(g, Take(g, w, events[0]), events[1..]);
    }
  }

  // --- what it comes to ------------------------------------------------------------------------------

  /** While the receiver's model shows a session of the sender's, no row is done
      that he did not send, and its file is what he read. */
  lemma ReceivedIsSent(g: Setting, disk: map<Text, seq<Byte>>, events: seq<Event>, j: nat)
    requires var w := RunAll(g, Start(disk), events);
             w.shown in w.grants && j < |w.receiver.files| && IsDone(w.receiver.files[j])
    ensures var w := RunAll(g, Start(disk), events);
            var row := w.receiver.files[j];
            exists q :: q in w.mail && w.mail[q].Upload? && w.mail[q].session == w.shown && w.mail[q].id == row.id
                        && row.localPath in w.receiver.disk && w.receiver.disk[row.localPath] == g.source(w.mail[q].path)
  {
    StartInv(g, disk);
    RunKeeps(g, Start(disk), events);
    var w := RunAll(g, Start(disk), events);
    var q := RowIsSent(g, w, j);
  }

  lemma RowIsSent(g: Setting, w: World, j: nat) returns (q: ReplyId)
    requires ReceiverOk(g, w) && w.shown in w.grants && j < |w.receiver.files| && IsDone(w.receiver.files[j])
    ensures var row := w.receiver.files[j];
            q in w.mail && w.mail[q].Upload? && w.mail[q].session == w.shown && w.mail[q].id == row.id
            && row.localPath in w.receiver.disk && w.receiver.disk[row.localPath] == g.source(w.mail[q].path)
  {
    assert Vouched(w, j);
    var c :| c in w.kept && Carries(w, c) && Parcel(w, c).session == w.shown
             && RowOfId(w.receiver.files, Parcel(w, c).id) == j;
    assert Counted(w, c) && Safe(g, w, c);
    q := w.wire[c];
  }
}
