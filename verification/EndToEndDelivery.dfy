/** What it comes to: a file the sender counts as done is at the receiver, byte for byte. */
module EndToEndDelivery {
  import opened Transfers
  import opened EndToEnd
  import opened EndToEndTables
  import opened EndToEndRun
  import opened EndToEndSafety
  import opened EndToEndNames
  import S = Send
  import SI = SendInvariant
  import SendIds
  import R = Receive
  import RI = ReceiveInvariant
  import RN = ReceiveNames
  import RD = ReceiveDisk
  import Bytes

  ghost predicate Whole(g: Setting, w: World) {
    Inv(g, w) && ReceivedNames(w) && SentNames(w)
  }

  lemma SentElsewhere(w: World, v: World)
    requires SentNames(w) && v.sender == w.sender && v.mail == w.mail && v.run == w.run
    requires forall k :: k in w.grants ==> k in v.grants && v.grants[k] == w.grants[k]
    ensures SentNames(v)
  {
  }

  lemma ReachesWhole(g: Setting, w: World, q: ReplyId, c: ConnId, address: Text, v: World)
    requires Whole(g, w) && Can(g, w, Reaches(q, c, address)) && v == After(g, w, Reaches(q, c, address))
    ensures ReceivedNames(v) && SentNames(v)
  {
    var conn := R.Conn(address, true, false, false, false, Bytes.None, 0, []);
    ReachedIs(g, w, v, q, c, address, conn);
    ReachesNames(g, w, v, c, q, conn);
    SentElsewhere(w, v);
  }

  lemma ReceiverWhole(g: Setting, w: World, e: R.Event, drops: set<ConnId>, v: World)
    requires Whole(g, w) && R.Enabled(w.receiver, e) && Genuine(g, w, e) && v == ToReceiver(g, w, e, drops)
    ensures ReceivedNames(v) && SentNames(v)
  {
    ReceiverNames(g, w, e, drops, v);
    NextGrants(g, w, e, drops, v);
    SentElsewhere(w, v);
  }

  lemma SenderWhole(g: Setting, w: World, e: S.Event, v: World)
    requires Whole(g, w) && S.Enabled(w.sender, e) && Plausible(g, w, e) && v == ToSender(w, e)
    ensures ReceivedNames(v) && SentNames(v)
  {
    SenderStep(g, w, e, v);
    SenderElsewhere(w, v);
    SenderNames(g, w, e, v);
  }

  lemma WholeKeeps(g: Setting, w: World, e: Event)
    requires Whole(g, w) && Can(g, w, e)
    ensures Whole(g, After(g, w, e))
  {
    TakeKeeps(g, w, e);
    match e
    case AtSender(action) => SenderWhole(g, w, action, After(g, w, e));
    case Reaches(q, c, address) => ReachesWhole(g, w, q, c, address, After(g, w, e));
    case AtReceiver(step, drops) => ReceiverWhole(g, w, step, drops, After(g, w, e));
  }

  lemma {:induction false} WholeRun(g: Setting, w: World, events: seq<Event>)
    requires Whole(g, w)
    ensures Whole(g, RunAll(g, w, events))
    decreases |events|
  {
    if events != [] {
      if Can(g, w, events[0]) {
        WholeKeeps(g, w, events[0]);
      }
      WholeRun(g, Take(g, w, events[0]), events[1..]);
    }
  }

  lemma StartWhole(g: Setting, disk: map<Text, seq<Byte>>)
    ensures Whole(g, Start(disk))
  {
    StartInv(g, disk);
  }

  /** A file that the receiver would call like the probe it writes into a folder. */
  predicate ProbesName(f: FileEntry) {
    RN.LikeProbe(NameOf(f.fileName))
  }

  /** `c` brought this very file under the session of this run. It is in the receiver's folder with the
      bytes it has at the sender, unless it is called like the probe and another session has come
      since; and for as long as the receiver's model shows the session, it counts the file as done,
      under the same id, and points there. */
  ghost predicate Delivered(g: Setting, w: World, f: FileEntry, c: ConnId) {
    && c in w.kept && Carries(w, c)
    && Parcel(w, c).session == w.run && Parcel(w, c).id == f.id && Parcel(w, c).path == f.localPath
    && (Stored(g, w, c) || (ProbesName(f) && w.shown != w.run))
    && (w.shown == w.run ==> Counted(w, c))
  }

  lemma OfferedOnce(m: S.Request, files: seq<FileEntry>, i: nat, name: Text)
    requires OfferedAs(m, files) && SendIds.IdsApart(files) && i < |files| && Offers(m, files[i].id, name)
    ensures name == NameOf(files[i].fileName)
  {
    var k: nat :| k < |m.offers| && m.offers[k].id == files[i].id && NameOf(m.offers[k].fileName) == name;
    assert files[k].id == files[i].id;
  }

  /** Ids within a request are unique, so what was kept like the probe is called like it. */
  lemma KeptProbeIsNamed(g: Setting, w: World, i: nat, c: ConnId)
    requires Whole(g, w) && i < |w.sender.files| && IsDone(w.sender.files[i])
    requires c in w.kept && Carries(w, c) && Parcel(w, c).session == w.run && Parcel(w, c).id == w.sender.files[i].id
    requires RD.ProbeNamed(w.kept[c])
    ensures ProbesName(w.sender.files[i])
  {
    assert Running(w.sender) && BroughtAsProbe(w, c);
    var name :| Offers(Asked(w, w.run), w.sender.files[i].id, name) && RN.LikeProbe(name);
    OfferedOnce(Asked(w, w.run), w.sender.files, i, name);
  }

  lemma DoneDelivered(g: Setting, w: World, i: nat) returns (c: ConnId)
    requires Whole(g, w) && i < |w.sender.files| && IsDone(w.sender.files[i])
    ensures Delivered(g, w, w.sender.files[i], c)
  {
    var f := w.sender.files[i];
    assert Backed(w, f);
    c :| c in w.kept && Carries(w, c) && Parcel(w, c).session == w.run
         && Parcel(w, c).id == f.id && Parcel(w, c).path == f.localPath;
    assert Safe(g, w, c);
    assert Spent(w, Parcel(w, c).session);
    if w.shown == w.run { assert Counted(w, c); }
    if RD.ProbeNamed(w.kept[c]) { KeptProbeIsNamed(g, w, i, c); }
  }

  /** Over every run of both ends, however connections break and answers get lost, whoever cancels,
      whatever else is sent to the receiver: a file the sender counts as done was delivered. */
  lemma DoneIsDelivered(g: Setting, disk: map<Text, seq<Byte>>, events: seq<Event>, i: nat)
    requires var w := RunAll(g, Start(disk), events);
             i < |w.sender.files| && IsDone(w.sender.files[i])
    ensures var w := RunAll(g, Start(disk), events);
            exists c :: Delivered(g, w, w.sender.files[i], c)
  {
    StartWhole(g, disk);
    WholeRun(g, Start(disk), events);
    var c := DoneDelivered(g, RunAll(g, Start(disk), events), i);
  }

  /** So a file by any other name is there, with its bytes, through everything that comes after: at the
      path where the upload that this run made of it was kept. */
  lemma DoneIsThere(g: Setting, disk: map<Text, seq<Byte>>, events: seq<Event>, i: nat)
    requires var w := RunAll(g, Start(disk), events);
             i < |w.sender.files| && IsDone(w.sender.files[i]) && !ProbesName(w.sender.files[i])
    ensures var w := RunAll(g, Start(disk), events);
            var f := w.sender.files[i];
            exists c :: c in w.kept && Carries(w, c) && Parcel(w, c).session == w.run && Parcel(w, c).id == f.id
                        && w.kept[c] in w.receiver.disk && w.receiver.disk[w.kept[c]] == g.source(f.localPath)
  {
    DoneIsDelivered(g, disk, events, i);
    var w := RunAll(g, Start(disk), events);
    var c :| Delivered(g, w, w.sender.files[i], c);
    assert Stored(g, w, c);
  }
}
