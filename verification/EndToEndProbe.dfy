/** Exactly which of the sender's files may be lost after they were received. */
module EndToEndProbe {
  import opened Transfers
  import opened EndToEnd
  import opened EndToEndTables
  import opened EndToEndSafety
  import opened EndToEndNames
  import opened EndToEndDelivery
  import S = Send
  import R = Receive
  import RI = ReceiveInvariant
  import RD = ReceiveDisk
  import RP = ReceiveProbe
  import Naming
  import Bytes

  // --- what is kept stays where it is kept ------------------------------------------------------

  /** Where `c` brought its file, and what is written there. */
  ghost predicate SameKept(w: World, v: World, c: ConnId)
    requires c in w.kept && Carries(w, c)
  {
    c in v.kept && v.kept[c] == w.kept[c] && Carries(v, c) && Parcel(v, c) == Parcel(w, c)
  }

  lemma SenderKeepsKept(w: World, e: S.Event, c: ConnId)
    requires Known(w) && S.Enabled(w.sender, e) && c in w.kept && Carries(w, c)
    ensures SameKept(w, ToSender(w, e), c)
  {
  }

  lemma ReachesKeepsKept(g: Setting, w: World, q: ReplyId, d: ConnId, address: Text, c: ConnId)
    requires TablesOk(w) && Can(g, w, Reaches(q, d, address)) && c in w.kept && Carries(w, c)
    ensures SameKept(w, After(g, w, Reaches(q, d, address)), c)
  {
  }

  lemma ReceiverKeepsKept(g: Setting, w: World, e: R.Event, drops: set<ConnId>, c: ConnId)
    requires ReceiverOk(g, w) && R.Enabled(w.receiver, e) && Genuine(g, w, e) && c in w.kept && Carries(w, c)
    ensures SameKept(w, ToReceiver(g, w, e, drops), c)
  {
    KeptUntouched(g, w, e, drops, ToReceiver(g, w, e, drops), c);
  }

  lemma TakeKeepsKept(g: Setting, w: World, e: Event, c: ConnId)
    requires Inv(g, w) && Can(g, w, e) && c in w.kept && Carries(w, c)
    ensures SameKept(w, After(g, w, e), c)
  {
    match e
    case AtSender(action) => SenderKeepsKept(w, action, c);
    case Reaches(q, d, address) => ReachesKeepsKept(g, w, q, d, address, c);
    case AtReceiver(step, drops) => ReceiverKeepsKept(g, w, step, drops, c);
  }

  lemma {:induction false} RunKeepsKept(g: Setting, w: World, events: seq<Event>, c: ConnId)
    requires Inv(g, w) && c in w.kept && Carries(w, c)
    ensures SameKept(w, RunAll(g, w, events), c)
    decreases |events|
  {
    if events != [] {
      if Can(g, w, events[0]) {
        TakeKeeps(g, w, events[0]);
        TakeKeepsKept(g, w, events[0], c);
      }
      RunKeepsKept(g, Take(g, w, events[0]), events[1..], c);
    }
  }

  /** In every run that follows, it is there. */
  lemma StoredThrough(g: Setting, w: World, events: seq<Event>, c: ConnId)
    requires Inv(g, w) && c in w.kept && Carries(w, c) && !RD.ProbeNamed(w.kept[c])
    ensures SameKept(w, RunAll(g, w, events), c) && Stored(g, RunAll(g, w, events), c)
  {
    RunKeeps(g, w, events);
    RunKeepsKept(g, w, events, c);
    assert Safe(g, RunAll(g, w, events), c);
  }

  // --- unless it is kept like the probe ------------------------------------------------------------

  /** The receiver is stopped, and a stranger sends a file to the folder. */
  function Script(d: ConnId, directory: Text): seq<Event> {
    [AtReceiver(R.StopListening, {}), AtReceiver(R.Connected(d, []), {}),
     AtReceiver(R.PrepareRequest(d, RP.QuickSave(directory)), {})]
  }

  lemma ThreeEvents(g: Setting, w: World, a: Event, b: Event, c: Event)
    ensures RunAll(g, w, [a, b, c]) == Take(g, Take(g, Take(g, w, a), b), c)
  {
    assert [a, b, c][1..] == [b, c] && [b, c][1..] == [c] && [c][1..] == [];
    assert RunAll(g, w, [a, b, c]) == RunAll(g, Take(g, w, a), [b, c]);
    assert RunAll(g, Take(g, w, a), [b, c]) == RunAll(g, Take(g, Take(g, w, a), b), [c]);
  }

  /** What a stranger does, happens, and nothing is put on the wire by it. */
  lemma StrangersTurn(g: Setting, w: World, e: R.Event)
    requires R.Enabled(w.receiver, e) && Genuine(g, w, e)
    ensures Take(g, w, AtReceiver(e, {})).receiver == R.Next(g.env, w.receiver, e, {})
    ensures Take(g, w, AtReceiver(e, {})).wire == w.wire && Take(g, w, AtReceiver(e, {})).sender == w.sender
  {
  }

  lemma ScriptBegins(g: Setting, w: World, d: ConnId) returns (v: World)
    requires RI.Inv(g.env, w.receiver) && d !in w.receiver.conns && d !in w.wire
    ensures v == Take(g, w, AtReceiver(R.StopListening, {}))
    ensures RP.Rests(v.receiver, d) && d !in v.wire && v.sender == w.sender
  {
    RP.Stops(g.env, w.receiver, d);
    StrangersTurn(g, w, R.StopListening);
    v := Take(g, w, AtReceiver(R.StopListening, {}));
  }

  lemma ScriptEnds(g: Setting, w: World, d: ConnId, directory: Text) returns (v: World)
    requires RP.Rests(w.receiver, d) && d !in w.wire
    ensures v == Take(g, Take(g, w, AtReceiver(R.Connected(d, []), {})), AtReceiver(R.PrepareRequest(d, RP.QuickSave(directory)), {}))
    ensures R.ProbePath(directory) !in v.receiver.disk && v.sender == w.sender
  {
    RP.ComesIn(g.env, w.receiver, d);
    StrangersTurn(g, w, R.Connected(d, []));
    var b := Take(g, w, AtReceiver(R.Connected(d, []), {}));
    RP.Asks(g.env, b.receiver, d, directory);
    StrangersTurn(g, b, R.PrepareRequest(d, RP.QuickSave(directory)));
    v := Take(g, b, AtReceiver(R.PrepareRequest(d, RP.QuickSave(directory)), {}));
  }

  lemma ProbeIsLost(g: Setting, w: World, d: ConnId, directory: Text)
    requires Inv(g, w) && d !in w.receiver.conns
    ensures var v := RunAll(g, w, Script(d, directory));
            R.ProbePath(directory) !in v.receiver.disk && v.sender == w.sender
  {
    var events := Script(d, directory);
    assert d !in w.wire;
    var a := ScriptBegins(g, w, d);
    var v := ScriptEnds(g, a, d, directory);
    ThreeEvents(g, w, events[0], events[1], events[2]);
  }

  lemma LosesProbe(g: Setting, w: World, c: ConnId) returns (events: seq<Event>)
    requires Inv(g, w) && c in w.kept && Carries(w, c) && RD.ProbeNamed(w.kept[c])
    ensures SameKept(w, RunAll(g, w, events), c) && !Stored(g, RunAll(g, w, events), c)
  {
    var d := RP.SomeFresh(w.receiver.conns.Keys);
    assert d !in w.receiver.conns;
    var directory := RP.FolderOf(w.kept[c]);
    events := Script(d, directory);
    ProbeIsLost(g, w, d, directory);
    RunKeepsKept(g, w, events, c);
  }

  ghost predicate StaysStored(g: Setting, w: World, c: ConnId, events: seq<Event>)
    requires c in w.kept && Carries(w, c)
  {
    SameKept(w, RunAll(g, w, events), c) && Stored(g, RunAll(g, w, events), c)
  }

  /** What a connection of the sender's brought stays stored, byte for byte, through every run that can
      follow, if and only if it was not kept under the probe's name. */
  lemma KeptExactly(g: Setting, disk: map<Text, seq<Byte>>, past: seq<Event>, c: ConnId)
    requires var w := RunAll(g, Start(disk), past); c in w.kept && Carries(w, c)
    ensures var w := RunAll(g, Start(disk), past);
            (forall events: seq<Event> :: StaysStored(g, w, c, events)) <==> !RD.ProbeNamed(w.kept[c])
  {
    StartInv(g, disk);
    RunKeeps(g, Start(disk), past);
    var w := RunAll(g, Start(disk), past);
    if RD.ProbeNamed(w.kept[c]) {
      var events := LosesProbe(g, w, c);
      assert !StaysStored(g, w, c, events);
    } else {
      forall events: seq<Event>
        ensures StaysStored(g, w, c, events)
      {
        StoredThrough(g, w, events, c);
      }
    }
  }
}
