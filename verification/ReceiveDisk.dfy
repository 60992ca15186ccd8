/** What the receiving side does to the download folder, and what a 200 means. */
module ReceiveDisk {
  import opened Transfers
  import opened Receive
  import opened ReceiveInvariant
  import opened ReceiveSafety
  import Bytes
  import Naming

  /** A session has just started, which is when the folder is probed. */
  predicate Starts(s: Service, t: Service) {
    s.session == 0 && t.session != 0
  }

  /** A file that no open upload is writing is still there, unchanged, and still nobody's part
      file; except for one called like the probe when a session starts. */
  ghost predicate Spared(s: Service, t: Service, p: Text) {
    p in s.disk && p !in PartsOf(s.uploads) && !(Starts(s, t) && p == ProbePath(t.directory)) ==>
      p in t.disk && p !in PartsOf(t.uploads) && t.disk[p] == s.disk[p]
  }

  ghost predicate Spares(s: Service, t: Service) {
    forall p :: Spared(s, t, p)
  }

  lemma FinishSpares(s: Service, how: Ending, drops: set<ConnId>)
    ensures Spares(s, FinishSession(s, how, drops))
  {
  }

  lemma DropSpares(s: Service, c: ConnId, conns: map<ConnId, Conn>, drops: set<ConnId>)
    requires c in s.uploads
    ensures Spares(s, FinishIfSettled(DropUpload(s.(conns := conns), c), drops))
  {
    var t := DropUpload(s.(conns := conns), c);
    PartsMember(s.uploads, c);
    assert PartsOf(t.uploads) <= PartsOf(s.uploads);
    FinishSpares(t, Over, drops);
    forall p
      ensures Spared(s, FinishIfSettled(t, drops), p)
    {
      assert Spared(s, t, p) && Spared(t, FinishIfSettled(t, drops), p);
    }
  }

  lemma ClosedSpares(s: Service, c: ConnId, conns: map<ConnId, Conn>, drops: set<ConnId>)
    ensures Spares(s, SlotsOnClosed(s.(conns := conns), c, drops))
  {
    if s.pending != Bytes.Some(c) && c in s.uploads {
      DropSpares(s, c, conns, drops);
    }
  }

  lemma RespondSpares(s: Service, c: ConnId, status: int, drops: set<ConnId>)
    ensures Spares(s, Respond(s, c, status, drops))
  {
    ClosedSpares(s, c, Reply(s, c, status, drops).conns, drops);
  }

  lemma OpenSpares(s: Service, c: ConnId, row: nat, final: Text)
    requires c in s.conns && c !in s.uploads && row < |s.files| && final + Naming.PART !in s.disk
    ensures Spares(s, OpenUpload(s, c, row, final))
  {
    var t := OpenUpload(s, c, row, final);
    assert PartsOf(t.uploads) <= PartsOf(s.uploads) + {final + Naming.PART};
  }

  /** One step after another, when no session starts in between. */
  lemma SparesTwice(s: Service, t: Service, u: Service)
    requires Spares(s, t) && Spares(t, u) && t.session == s.session && (s.session == 0 ==> u.session == 0)
    ensures Spares(s, u)
  {
    forall p
      ensures Spared(s, u, p)
    {
      assert Spared(s, t, p) && Spared(t, u, p);
    }
  }

  lemma TakeUploadSpares(s: Service, c: ConnId, row: nat, length: int, opens: bool, drops: set<ConnId>)
    requires c in s.conns && c !in s.uploads && row < |s.files| && s.session != 0
    ensures Spares(s, TakeUpload(s, c, row, length, opens, drops))
  {
    var reserved := Naming.Reserve(s.disk.Keys, s.directory, s.files[row].fileName);
    if reserved.Some? && opens {
      Naming.ReservedIsFresh(s.disk.Keys, s.directory, s.files[row].fileName);
      var u := OpenUpload(s, c, row, reserved.value);
      OpenSpares(s, c, row, reserved.value);
      RespondSpares(u, c, 413, drops);
      SparesTwice(s, u, Respond(u, c, 413, drops));
    }
  }

  lemma WrittenSpares(s: Service, c: ConnId, data: seq<Byte>)
    requires c in s.conns && s.conns[c].sink.Some?
    ensures Spares(s, Written(s, c, data))
  {
    var t := Written(s, c, data);
    if c in s.uploads {
      PartsMember(s.uploads, c);
      assert PartsOf(t.uploads) <= PartsOf(s.uploads);
    }
  }

  lemma UploadDataSpares(s: Service, c: ConnId, data: seq<Byte>, taken: nat, drops: set<ConnId>)
    requires c in s.conns && s.conns[c].sink.Some? && taken <= |data|
    ensures Spares(s, UploadData(s, c, data, taken, drops))
  {
    var t := Written(s, c, data[..taken]);
    if s.conns[c].received + |data| > s.conns[c].sink.value.ceiling {
      RespondSpares(s, c, 413, drops);
    } else {
      WrittenSpares(s, c, data[..taken]);
      if taken < |data| {
        RespondSpares(t, c, 500, drops);
        RespondSession(t, c, 500, drops);
        SparesTwice(s, t, Respond(t, c, 500, drops));
      } else {
        ProgressSpares(s, t, c, s.conns[c].received + |data|);
      }
    }
  }

  lemma ProgressSpares(s: Service, t: Service, c: ConnId, total: nat)
    requires Spares(s, t) && c in t.conns && t.session == s.session
    ensures Spares(s, Progress(t, c, total))
  {
    forall p
      ensures Spared(s, Progress(t, c, total), p)
    {
      assert Spared(s, t, p);
    }
  }

  lemma RespondSession(s: Service, c: ConnId, status: int, drops: set<ConnId>)
    ensures Respond(s, c, status, drops).session == s.session || Respond(s, c, status, drops).session == 0
  {
  }

  lemma SettleSpares(s: Service, c: ConnId, conns: map<ConnId, Conn>, renames: bool)
    requires UploadsOk(s) && c in s.uploads && s.uploads[c].part in s.disk
    ensures Spares(s, Settle(s.(conns := conns, uploads := s.uploads - {c}), s.uploads[c], renames))
  {
    var u := s.uploads[c];
    var t := Settle(s.(conns := conns, uploads := s.uploads - {c}), u, renames);
    PartsMember(s.uploads, c);
    assert PartsOf(t.uploads) <= PartsOf(s.uploads);
  }

  lemma ConcludeSpares(env: Env, s: Service, c: ConnId, conns: map<ConnId, Conn>, renames: bool)
    requires UploadsOk(s) && c in s.uploads && s.uploads[c].row < |s.files| && s.uploads[c].part in s.disk
    ensures Spares(s, Conclude(env, s.(conns := conns), c, renames))
  {
    SettleSpares(s, c, conns, renames);
    var v := DropUpload(s.(conns := conns), c);
    PartsMember(s.uploads, c);
    assert PartsOf(v.uploads) <= PartsOf(s.uploads);
  }

  lemma UploadEndSpares(env: Env, s: Service, c: ConnId, renames: bool, drops: set<ConnId>)
    requires Inv(env, s) && Enabled(s, BodyEnd(c, renames))
    ensures Spares(s, UploadEnd(env, s, c, renames, drops))
  {
    var t := s.(conns := s.conns[c := s.conns[c].(complete := true)]);
    if c in s.uploads {
      assert UploadOk(s, c);
      ConcludeSpares(env, s, c, t.conns, renames);
      TailSpares(s, Conclude(env, t, c, renames), c, Outcome(env, t, t.uploads[c]), drops);
    }
  }

  lemma TailSpares(s: Service, v: Service, c: ConnId, status: int, drops: set<ConnId>)
    requires Spares(s, v) && v.session == s.session
    ensures Spares(s, FinishIfSettled(Reply(v, c, status, drops).(idleTimer := true), drops))
  {
    var w := Reply(v, c, status, drops).(idleTimer := true);
    FinishSpares(w, Over, drops);
    forall p
      ensures Spared(s, w, p)
    {
      assert Spared(s, v, p);
    }
    SparesTwice(s, w, FinishIfSettled(w, drops));
  }

  lemma AcceptSpares(s: Service, folder: Option<Text>, drops: set<ConnId>)
    requires Parked(s)
    ensures Spares(s, Accept(s, folder, drops))
  {
  }

  lemma PeerCancelSpares(s: Service, c: ConnId, session: Secret, drops: set<ConnId>)
    requires c in s.conns
    ensures Spares(s, PeerCancel(s, c, session, drops))
  {
    var t := Reply(s.(conns := s.conns[c := s.conns[c].(headSeen := true, complete := true)]), c, 200, drops);
    assert Spares(s, t);
    FinishSpares(t, Stopped, drops);
    if t.session != 0 { SparesTwice(s, t, FinishSession(t, Stopped, drops)); }
  }

  lemma IdleSpares(s: Service, drops: set<ConnId>)
    ensures Spares(s, SessionIdle(s, drops))
  {
    var t := s.(idleTimer := false);
    assert Spares(s, t);
    FinishSpares(t, Over, drops);
    if t.session != 0 { SparesTwice(s, t, FinishSession(t, Over, drops)); }
  }

  /** No event truncates, overwrites or removes a file that it is not writing itself: neither what
      was in the folder before, nor what has been received. */
  lemma NextSpares(env: Env, s: Service, e: Event, drops: set<ConnId>)
    requires Inv(env, s) && Enabled(s, e)
    ensures Spares(s, Next(env, s, e, drops))
  {
    match e
    case PrepareRequest(c, p) =>
      NotUploading(s, c);
      PrepareSpares(env, s, c, p, drops);
    case UploadHeaders(c, r, opens) =>
      NotUploading(s, c);
      var t := s.(conns := s.conns[c := s.conns[c].(headSeen := true)]);
      if Admission(t, c, r) == 0 {
        var row := RowOfId(t.files, r.fileId);
        TakeUploadSpares(t, c, row, r.length, opens, drops);
        assert Spares(s, t);
        var u := TakeUpload(t, c, row, r.length, opens, drops);
        SparesTwice(s, t, u);
      }
    case Block(c, data, taken) => UploadDataSpares(s, c, data, taken, drops);
    case BodyEnd(c, renames) => UploadEndSpares(env, s, c, renames, drops);
    case CancelRequest(c, session) => PeerCancelSpares(s, c, session, drops);
    case ConnTimeout(c) =>
      RespondSpares(s, c, 408, drops);
      ClosedSpares(s, c, s.conns[c := s.conns[c].(open := false, answered := true)], drops);
    case ConnClosed(c) => ClosedSpares(s, c, s.conns[c := s.conns[c].(open := false, answered := true)], drops);
    case UserAccepts(folder) =>
      if s.pending.Some? {
        InvParked(env, s);
        AcceptSpares(s, folder, drops);
      }
    case UserCancels => FinishSpares(s, Stopped, drops);
    case IdleTimerFires => IdleSpares(s, drops);
    case StopListening => FinishSpares(s, Stopped, drops);
    case _ =>
  }

  lemma PrepareSpares(env: Env, s: Service, c: ConnId, p: Prepare, drops: set<ConnId>)
    requires Inv(env, s) && Enabled(s, PrepareRequest(c, p)) && c !in s.uploads
    ensures Spares(s, PrepareUpload(s, c, p, drops))
  {
    if Verdict(s, p) == 0 && p.quickSave {
      var conn := s.conns[c].(headSeen := true, complete := true);
      var t := s.(conns := s.conns[c := conn]);
      SeenKeeps(s, c, conn);
      var parked := t.(files := EntriesOf(p.files), state := State.Pending, pending := Bytes.Some(c));
      assert Parked(parked);
      AcceptSpares(parked, p.folder, drops);
      assert Spares(s, parked);
      forall q
        ensures Spared(s, Accept(parked, p.folder, drops), q)
      {
        assert Spared(s, parked, q) && Spared(parked, Accept(parked, p.folder, drops), q);
      }
    }
  }

  // --- runs ----------------------------------------------------------------------------------

  /** The name every probe has, in whatever folder. */
  predicate ProbeNamed(p: Text) {
    var tail := [Naming.SLASH] + Naming.PROBE;
    |p| >= |tail| && p[|p| - |tail|..] == tail
  }

  lemma ProbesAreNamed(directory: Text)
    ensures ProbeNamed(ProbePath(directory))
  {
    var tail := [Naming.SLASH] + Naming.PROBE;
    assert ProbePath(directory) == directory + tail;
  }

  /** Over any run, through any number of sessions, with uploads failing and sockets going down
      anywhere: a file that is nobody's part file keeps its contents to the end, unless it has the
      probe's own name; ReceiveProbe.dfy has the other half. */
  lemma {:induction false} RunSpares(env: Env, s: Service, turns: seq<Turn>, p: Text)
    requires Inv(env, s) && p in s.disk && p !in PartsOf(s.uploads) && !ProbeNamed(p)
    ensures var t := RunAll(env, s, turns);
            p in t.disk && p !in PartsOf(t.uploads) && t.disk[p] == s.disk[p]
    decreases |turns|
  {
    if turns != [] {
      var t := Take(env, s, turns[0]);
      if Enabled(s, turns[0].0) {
        NextKeeps(env, s, turns[0].0, turns[0].1);
        NextSpares(env, s, turns[0].0, turns[0].1);
        ProbesAreNamed(t.directory);
        assert Spared(s, t, p);
      }
      RunSpares(env, t, turns[1..], p);
    }
  }

  /** Within one session not even the probe's name is an exception. */
  lemma {:induction false} SessionSpares(env: Env, s: Service, turns: seq<Turn>, p: Text)
    requires Inv(env, s) && p in s.disk && p !in PartsOf(s.uploads)
    requires forall k :: 0 <= k < |turns| ==> RunAll(env, s, turns[..k]).session != 0
    ensures var t := RunAll(env, s, turns);
            p in t.disk && p !in PartsOf(t.uploads) && t.disk[p] == s.disk[p]
    decreases |turns|
  {
    if turns != [] {
      var t := Take(env, s, turns[0]);
      assert RunAll(env, s, turns[..0]).session != 0;
      if Enabled(s, turns[0].0) {
        NextKeeps(env, s, turns[0].0, turns[0].1);
        NextSpares(env, s, turns[0].0, turns[0].1);
        assert Spared(s, t, p);
      }
      forall k | 0 <= k < |turns| - 1
        ensures RunAll(env, t, turns[1..][..k]).session != 0
      {
        assert turns[..k + 1][1..] == turns[1..][..k];
        assert RunAll(env, s, turns[..k + 1]).session != 0;
      }
      SessionSpares(env, t, turns[1..], p);
    }
  }

  // --- what a 200 means ------------------------------------------------------------------------

  /** An upload that leaves the table is kept exactly as it was written, or not at all. */
  lemma ConcludedExactly(env: Env, s: Service, c: ConnId, renames: bool)
    requires UploadsOk(s) && c in s.uploads && UploadOk(s, c)
    ensures var u, v := s.uploads[c], Conclude(env, s, c, renames);
            var f, bytes, path := s.files[u.row], s.disk[u.part], KeptPath(s, u, renames);
            && (Outcome(env, s, u) == 200 <==> |bytes| == f.size && env.accepts(bytes, f.sha256))
            && (if Outcome(env, s, u) == 200
                then path in v.disk && v.disk[path] == bytes && path !in PartsOf(v.uploads)
                     && v.files[u.row] == f.(localPath := path, status := FileDone, transferred := f.size)
                else u.part !in v.disk && v.files[u.row] == f.(status := FileFailed))
  {
    var u := s.uploads[c];
    if Outcome(env, s, u) == 200 {
      SettledExact(env, s, c, Conclude(env, s, c, renames), renames);
    }
  }

  /** A whole body is answered 200 exactly when as many bytes arrived as were agreed to and, if a
      well-formed digest came with the request, they have it; then those bytes are kept, under a
      name that nothing else writes to. Otherwise nothing of them is left. */
  lemma AnsweredExactly(env: Env, s: Service, c: ConnId, renames: bool, drops: set<ConnId>)
    requires Inv(env, s) && Enabled(s, BodyEnd(c, renames)) && c in s.uploads
    ensures var u, t := s.uploads[c], UploadEnd(env, s, c, renames, drops);
            var f, bytes, path := s.files[u.row], s.disk[u.part], KeptPath(s, u, renames);
            var kept := |bytes| == f.size && env.accepts(bytes, f.sha256);
            && c in t.conns
            && t.conns[c].statuses[..|t.conns[c].statuses| - 1] == s.conns[c].statuses
            && (t.conns[c].statuses[|t.conns[c].statuses| - 1] == 200 <==> kept)
            && (if kept then path in t.disk && t.disk[path] == bytes && path !in PartsOf(t.uploads)
                else u.part !in t.disk)
  {
    var t := s.(conns := s.conns[c := s.conns[c].(complete := true)]);
    var u := s.uploads[c];
    assert UploadOk(s, c);
    ConcludedExactly(env, s, c, renames);
    var v := Conclude(env, t, c, renames);
    assert v == Conclude(env, s, c, renames).(conns := t.conns);
    ConcludeKeeps(env, s, c, t.conns[c], renames);
    TailExactly(v, c, Outcome(env, t, u), KeptPath(s, u, renames), drops);
  }

  /** With the digest check spelled out: a 200 for a whole body means that many bytes, and the
      declared SHA-256 if it was well formed. */
  lemma AnsweredWithDigest(sha: seq<Byte> -> Text, s: Service, c: ConnId, renames: bool, drops: set<ConnId>)
    requires Inv(Sha256(sha), s) && Enabled(s, BodyEnd(c, renames)) && c in s.uploads
    ensures var u, t := s.uploads[c], UploadEnd(Sha256(sha), s, c, renames, drops);
            var f, bytes := s.files[u.row], s.disk[u.part];
            && c in t.conns && t.conns[c].statuses != []
            && (t.conns[c].statuses[|t.conns[c].statuses| - 1] == 200 <==>
                  |bytes| == f.size && (LooksLikeSha256(f.sha256) ==> Upper(sha(bytes)) == Upper(f.sha256)))
  {
    AnsweredExactly(Sha256(sha), s, c, renames, drops);
  }

  /** The answer is the last thing `c` hears, and what is nobody's part file outlives the session. */
  lemma TailExactly(v: Service, c: ConnId, status: int, path: Text, drops: set<ConnId>)
    requires c in v.conns && c !in v.uploads && v.pending.None? && !v.conns[c].answered && v.session != 0
    ensures var after := FinishIfSettled(Reply(v, c, status, drops).(idleTimer := true), drops);
            && c in after.conns && after.conns[c].statuses == v.conns[c].statuses + [status]
            && after.disk.Keys <= v.disk.Keys
            && (path in v.disk && path !in PartsOf(v.uploads) ==>
                  path in after.disk && after.disk[path] == v.disk[path] && path !in PartsOf(after.uploads))
  {
    var w := Reply(v, c, status, drops).(idleTimer := true);
    FinishElsewhere(w, drops, c);
    FinishSpares(w, Over, drops);
    assert Spared(w, FinishIfSettled(w, drops), path);
  }

  /** Ending a session answers nobody but the connections of its uploads, and restores no file. */
  lemma FinishElsewhere(s: Service, drops: set<ConnId>, c: ConnId)
    requires c in s.conns && c !in s.uploads && s.pending.None?
    ensures var t := FinishIfSettled(s, drops);
            && c in t.conns && t.conns[c] == s.conns[c]
            && t.disk.Keys <= s.disk.Keys
  {
  }

  // --- sessions ------------------------------------------------------------------------------

  lemma {:induction false} EndedBelow(log: seq<SessionEvent>, session: Secret, bound: nat, k: nat)
    requires LogOk(log, session, bound) && k < |log|
    ensures 0 < log[k].id <= bound
    ensures log[k].Ended? ==> log[k].id != session
    decreases |log|
  {
    var n := |log| - 1;
    var earlier := log[..n];
    match log[n]
    case Started(id) => if k < n { EndedBelow(earlier, 0, id - 1, k); }
    case Ended(id) =>
      if k < n { EndedBelow(earlier, id, bound, k); }
      else if earlier != [] { EndedBelow(earlier, id, bound, n - 1); }
  }

  lemma {:induction false} EndedApart(log: seq<SessionEvent>, session: Secret, bound: nat, j: nat, k: nat)
    requires LogOk(log, session, bound) && j < k < |log| && log[j].Ended? && log[k].Ended?
    ensures log[j].id != log[k].id
    decreases |log|
  {
    var n := |log| - 1;
    var earlier := log[..n];
    match log[n]
    case Started(id) => EndedApart(earlier, 0, id - 1, j, k);
    case Ended(id) =>
      if k < n { EndedApart(earlier, id, bound, j, k); } else { EndedBelow(earlier, id, bound, j); }
  }

  /** Over no run does a session end twice. */
  lemma EndedOnce(env: Env, disk: map<Text, seq<Byte>>, turns: seq<Turn>, j: nat, k: nat)
    requires var log := RunAll(env, INITIAL.(disk := disk), turns).log;
             j < k < |log| && log[j].Ended? && log[k].Ended?
    ensures var log := RunAll(env, INITIAL.(disk := disk), turns).log;
            log[j].id != log[k].id
  {
    InitialInv(env, disk);
    RunKeeps(env, INITIAL.(disk := disk), turns);
    var s := RunAll(env, INITIAL.(disk := disk), turns);
    EndedApart(s.log, s.session, s.issued, j, k);
  }
}
