/** Which sessions end by themselves, and which are left to the idle timer. */
module ReceiveLinger {
  import opened Transfers
  import opened Receive
  import opened ReceiveInvariant
  import opened ReceiveSafety
  import Bytes
  import Naming

  /** A session that has nothing left to wait for and goes on. */
  ghost predicate Lingers(s: Service) {
    s.session != 0 && AllSettled(s.files)
  }

  lemma FinishNeverLingers(s: Service, drops: set<ConnId>)
    ensures !Lingers(FinishIfSettled(s, drops))
  {
  }

  lemma ClosedNeverLingers(s: Service, c: ConnId, drops: set<ConnId>)
    ensures Lingers(SlotsOnClosed(s, c, drops)) ==> Lingers(s)
  {
    if s.pending != Bytes.Some(c) && c in s.uploads {
      FinishNeverLingers(DropUpload(s, c), drops);
    }
  }

  lemma RespondNeverLingers(s: Service, c: ConnId, status: int, drops: set<ConnId>)
    ensures Lingers(Respond(s, c, status, drops)) ==> Lingers(s)
  {
    ClosedNeverLingers(Reply(s, c, status, drops), c, drops);
  }

  lemma ProgressSettles(files: seq<FileEntry>, row: nat, count: nat)
    ensures AllSettled(WithTransferred(files, row, count)) ==> AllSettled(files)
  {
    var after := WithTransferred(files, row, count);
    if AllSettled(after) {
      forall i | 0 <= i < |files|
        ensures Settled(files[i])
      {
        assert Settled(after[i]);
      }
    }
  }

  lemma DataNeverLingers(s: Service, c: ConnId, data: seq<Byte>, taken: nat, drops: set<ConnId>)
    requires c in s.conns && s.conns[c].sink.Some? && taken <= |data|
    ensures Lingers(UploadData(s, c, data, taken, drops)) ==> Lingers(s)
  {
    RespondNeverLingers(s, c, 413, drops);
    var t := Written(s, c, data[..taken]);
    RespondNeverLingers(t, c, 500, drops);
    if c in t.uploads {
      ProgressSettles(t.files, t.uploads[c].row, s.conns[c].received + |data|);
    }
  }

  lemma TransferringUnsettled(files: seq<FileEntry>, row: nat)
    requires row < |files|
    ensures !AllSettled(WithStatus(files, row, FileTransferring))
  {
    assert !Settled(WithStatus(files, row, FileTransferring)[row]);
  }

  lemma AcceptNeverLingers(s: Service, folder: Option<Text>, drops: set<ConnId>)
    requires Parked(s)
    ensures !Lingers(Accept(s, folder, drops))
  {
    var t := Accept(s, folder, drops);
    if folder.Some? {
      assert t.files[0].status == s.files[0].status;
      assert !Settled(t.files[0]);
    }
  }

  lemma PrepareNeverLingers(env: Env, s: Service, c: ConnId, p: Prepare, drops: set<ConnId>)
    requires Inv(env, s) && Enabled(s, PrepareRequest(c, p))
    ensures Lingers(PrepareUpload(s, c, p, drops)) ==> Lingers(s)
  {
    if Verdict(s, p) == 0 && p.quickSave {
      NotUploading(s, c);
      var conn := s.conns[c].(headSeen := true, complete := true);
      SeenKeeps(s, c, conn);
      var parked := s.(conns := s.conns[c := conn], files := EntriesOf(p.files), state := State.Pending, pending := Bytes.Some(c));
      assert Parked(parked);
      AcceptNeverLingers(parked, p.folder, drops);
    }
  }

  lemma TakeUploadLingers(s: Service, c: ConnId, row: nat, length: int, opens: bool, drops: set<ConnId>)
    requires c in s.conns && row < |s.files|
    ensures var t := TakeUpload(s, c, row, length, opens, drops);
            Lingers(t) ==> t.files == WithStatus(s.files, row, FileFailed)
                           && (!opens || Naming.Reserve(s.disk.Keys, s.directory, s.files[row].fileName).None?)
  {
    var reserved := Naming.Reserve(s.disk.Keys, s.directory, s.files[row].fileName);
    if reserved.Some? && opens {
      var u := OpenUpload(s, c, row, reserved.value);
      TransferringUnsettled(s.files, row);
      RespondNeverLingers(u, c, 413, drops);
    }
  }

  /** A live session is left with nothing to wait for by one event only: a file that is refused
      between its head and its body, for want of a name or because its part file cannot be
      opened. */
  lemma OnlyHeadFailuresLinger(env: Env, s: Service, e: Event, drops: set<ConnId>)
    requires Inv(env, s) && Enabled(s, e) && !Lingers(s) && Lingers(Next(env, s, e, drops))
    ensures e.UploadHeaders? && RowOfId(s.files, e.request.fileId) >= 0
    ensures var row := RowOfId(s.files, e.request.fileId);
            && Next(env, s, e, drops).files == WithStatus(s.files, row, FileFailed)
            && (!e.opens || Naming.Reserve(s.disk.Keys, s.directory, s.files[row].fileName).None?)
  {
    match e
    case PrepareRequest(c, p) => PrepareNeverLingers(env, s, c, p, drops);
    case UploadHeaders(c, r, opens) =>
      var t := s.(conns := s.conns[c := s.conns[c].(headSeen := true)]);
      if Admission(t, c, r) == 0 {
        TakeUploadLingers(t, c, RowOfId(t.files, r.fileId), r.length, opens, drops);
      }
    case Block(c, data, taken) => DataNeverLingers(s, c, data, taken, drops);
    case BodyEnd(c, renames) =>
      if c in s.uploads {
        var t := s.(conns := s.conns[c := s.conns[c].(complete := true)]);
        FinishNeverLingers(Reply(Conclude(env, t, c, renames), c, Outcome(env, t, t.uploads[c]), drops).(idleTimer := true), drops);
      }
    case ConnTimeout(c) =>
      RespondNeverLingers(s, c, 408, drops);
      ClosedNeverLingers(s.(conns := s.conns[c := s.conns[c].(open := false, answered := true)]), c, drops);
    case ConnClosed(c) =>
      ClosedNeverLingers(s.(conns := s.conns[c := s.conns[c].(open := false, answered := true)]), c, drops);
    case UserAccepts(folder) =>
      if s.pending.Some? {
        InvParked(env, s);
        AcceptNeverLingers(s, folder, drops);
      }
    case _ =>
  }

  /** And that event does: when the file it refuses was the last one outstanding, the session stays
      open with its idle timer running. */
  lemma HeadFailureLingers(env: Env, s: Service, c: ConnId, r: UploadRequest, opens: bool, drops: set<ConnId>)
    requires Inv(env, s) && Enabled(s, UploadHeaders(c, r, opens)) && Admission(s, c, r) == 0
    requires var row := RowOfId(s.files, r.fileId);
             && (!opens || Naming.Reserve(s.disk.Keys, s.directory, s.files[row].fileName).None?)
             && (forall i :: 0 <= i < |s.files| && i != row ==> Settled(s.files[i]))
    ensures var t := Next(env, s, UploadHeaders(c, r, opens), drops);
            Lingers(t) && t.session == s.session && t.idleTimer
  {
    var t := Next(env, s, UploadHeaders(c, r, opens), drops);
    var row := RowOfId(s.files, r.fileId);
    assert t.files == WithStatus(s.files, row, FileFailed);
    forall i | 0 <= i < |t.files|
      ensures Settled(t.files[i])
    {
      assert i != row ==> t.files[i] == s.files[i];
    }
  }
}
