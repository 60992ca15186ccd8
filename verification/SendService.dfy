/** The sending service as the object it is: its fields change from slot to slot, and it shares its
    rows with the transfer model. Every slot is proved to be the step Send gives it. */
module SendService {
  import opened Transfers
  import opened Send
  import opened TransferModel
  import Bytes

  class SendService {
    const transfer: TransferModel
    var busy: bool
    var cancelled: bool
    var pinAttempted: bool
    var session: Secret
    var currentRow: RowIndex
    var flight: map<ReplyId, Request>
    var reply: Option<ReplyId>
    var issued: nat

    /** Runs that became busy, finished() signals, and whether the run got as far as uploading. */
    ghost var begun: nat
    ghost var ended: nat
    ghost var uploading: bool

    ghost function Snapshot(): Sender
      reads this, transfer
    {
      Sender(busy, cancelled, pinAttempted, session, currentRow, flight, reply, issued,
             transfer.files, transfer.state, begun, ended, uploading)
    }

    ghost predicate Ready()
      reads transfer
    {
      transfer.Sized()
    }

    constructor (model: TransferModel)
      requires model.Sized() && model.files == [] && model.state.Idle?
      ensures Ready() && transfer == model && Snapshot() == IDLE
    {
      transfer := model;
      busy, cancelled, pinAttempted, session, currentRow := false, false, false, 0, -1;
      flight, reply, issued := map[], Bytes.None, 0;
      begun, ended, uploading := 0, 0, false;
    }

    // --- the model it reports to --------------------------------------------------------

    method SetStatus(row: int, status: FileStatus)
      requires Ready()
      modifies transfer
      ensures Ready() && transfer.state == old(transfer.state)
      ensures transfer.files == WithStatus(old(transfer.files), row, status)
    {
      transfer.SetFileStatus(row, status);
    }

    method SetState(next: State)
      requires Ready()
      modifies transfer
      ensures Ready() && transfer.state == next && transfer.files == old(transfer.files)
    {
      var sameError: bool := *;
      transfer.SetState(next, sameError);
    }

    method Begin(entries: seq<FileEntry>, next: State)
      requires Ready()
      modifies transfer
      ensures Ready() && transfer.state == next && transfer.files == entries
    {
      transfer.Begin(entries);
      SetState(next);
    }

    /** A request goes out, and its reply is the one held from now on. */
    method PostRequest(request: Request)
      requires Ready()
      modifies this`flight, this`reply, this`issued
      ensures Snapshot() == Post(old(Snapshot()), request)
    {
      flight := flight[issued := request];
      reply := Bytes.Some(issued);
      issued := issued + 1;
    }

    // --- starting ---------------------------------------------------------------------

    method Entries(sources: seq<Source>) returns (entries: seq<FileEntry>)
      ensures entries == EntriesOf(sources, |sources|)
    {
      entries := [];
      for i := 0 to |sources|
        invariant entries == EntriesOf(sources, i)
      {
        var f := sources[i];
        if f.readable {
          entries := entries + [FileEntry(IdOf(i, f.salt), f.fileName, f.size, [], 0, f.path, 0, FileWaiting)];
        }
      }
    }

    method RequestUpload()
      requires Ready()
      modifies this`flight, this`reply, this`issued
      ensures Snapshot() == Post(old(Snapshot()), Prepare(OffersOf(transfer.files)))
    {
      var offers := [];
      for row := 0 to |transfer.files|
        invariant offers == OffersOf(transfer.files)[..row]
      {
        var entry := transfer.files[row];
        offers := offers + [Offer(entry.id, entry.fileName, entry.size)];
      }
      assert offers == OffersOf(transfer.files);
      PostRequest(Prepare(offers));
    }

    method OnSendFiles(reachable: bool, blocked: bool, sources: seq<Source>)
      requires Ready()
      modifies this, transfer
      ensures Ready() && Snapshot() == SendFiles(old(Snapshot()), reachable, blocked, sources)
    {
      if busy || !reachable || |sources| == 0 {
        return;
      }
      if blocked {
        Begin([], State.Failed);
        return;
      }
      var entries := Entries(sources);
      if |entries| == 0 {
        return;
      }
      AskFor(entries);
    }

    method AskFor(entries: seq<FileEntry>)
      requires Ready()
      modifies this, transfer
      ensures Ready() && Snapshot() == Ask(old(Snapshot()), entries)
    {
      BecomeBusy();
      Begin(entries, State.Requesting);
      RequestUpload();
    }

    method BecomeBusy()
      modifies this`session, this`cancelled, this`pinAttempted, this`busy, this`begun, this`uploading
      ensures session == 0 && !cancelled && !pinAttempted && busy && begun == old(begun) + 1 && !uploading
    {
      session, cancelled, pinAttempted, busy := 0, false, false, true;
      begun, uploading := begun + 1, false;
    }

    method OnSubmitPin(empty: bool)
      requires Ready()
      modifies this, transfer
      ensures Ready() && Snapshot() == SubmitPin(old(Snapshot()), empty)
    {
      if !busy || empty {
        return;
      }
      pinAttempted := true;
      SetState(State.Requesting);
      RequestUpload();
    }

    // --- ending -----------------------------------------------------------------------

    method Skip(andTransferring: bool)
      requires Ready()
      modifies transfer
      ensures Ready() && transfer.state == old(transfer.state)
      ensures transfer.files == Each(old(transfer.files), if andTransferring then SkipUnfinished else SkipWaiting)
    {
      ghost var before := transfer.files;
      var row := 0;
      while row < |transfer.files|
        invariant Ready() && transfer.state == old(transfer.state)
        invariant 0 <= row <= |transfer.files| == |before|
        invariant forall i :: 0 <= i < row ==>
          transfer.files[i] == if andTransferring then SkipUnfinished(before[i]) else SkipWaiting(before[i])
        invariant forall i :: row <= i < |before| ==> transfer.files[i] == before[i]
      {
        var status := transfer.files[row].status;
        if status.FileWaiting? || (andTransferring && status.FileTransferring?) {
          SetStatus(row, FileSkipped);
        }
        row := row + 1;
      }
    }

    /** The run is over: finished() is emitted once the model says so. */
    method Finish(state: State)
      requires Ready()
      modifies this`busy, this`ended, transfer
      ensures Ready() && Snapshot() == EndQuietly(old(Snapshot()), state)
    {
      SetState(state);
      busy := false;
      ended := ended + 1;
    }

    method FailTransfer()
      requires Ready()
      modifies this`busy, this`ended, this`session, transfer
      ensures Ready() && Snapshot() == Fail(old(Snapshot()))
    {
      Skip(false);
      Finish(State.Failed);
      session := 0;
    }

    method CompleteTransfer()
      requires Ready()
      modifies this`busy, this`ended, this`session, transfer
      ensures Ready() && Snapshot() == Complete(old(Snapshot()))
    {
      var done := transfer.CompletedCount();
      Finish(if done == |transfer.files| then State.Finished else State.Failed);
      session := 0;
    }

    method OnCancel()
      requires Ready()
      modifies this, transfer
      ensures Ready() && Snapshot() == Cancel(old(Snapshot()))
    {
      if !busy {
        return;
      }
      cancelled := true;
      if reply.Some? {
        Abort(reply.value);
      }
      Skip(true);
      Finish(State.Cancelled);
      session := 0;
    }

    /** abort() delivers the reply on the spot, to a slot that sees the run was cancelled. */
    method Abort(id: ReplyId)
      requires Ready() && cancelled && reply == Bytes.Some(id)
      modifies this`flight, this`reply, transfer
      ensures Ready() && flight == old(flight) - {id} && reply.None?
      ensures transfer.files == old(transfer.files) && transfer.state == old(transfer.state)
    {
      TakeReply(id);
    }

    // --- files, one after another ---------------------------------------------------------

    method OnStartNextFile(opens: set<nat>)
      requires Ready()
      modifies this, transfer
      ensures Ready() && Snapshot() == StartNextFile(old(Snapshot()), opens)
      decreases |transfer.files| - currentRow
    {
      if cancelled {
        return;
      }
      var first := currentRow + 1;
      var row := first;
      while row < |transfer.files| && !transfer.files[row].status.FileWaiting?
        invariant first <= row
        invariant first <= |transfer.files| ==> row <= |transfer.files|
        invariant first <= |transfer.files| ==> NextWaiting(transfer.files, first) == NextWaiting(transfer.files, row)
      {
        row := row + 1;
      }
      if row >= |transfer.files| {
        CompleteTransfer();
        return;
      }
      currentRow := row;
      if row !in opens {
        SetStatus(row, FileFailed);
        OnStartNextFile(opens);
        return;
      }
      SetStatus(row, FileTransferring);
      var entry := transfer.files[row];
      PostRequest(Upload(row, session, entry.id, entry.token, entry.size, entry.localPath));
    }

    // --- replies ---------------------------------------------------------------------------

    method TakeReply(id: ReplyId)
      requires Ready()
      modifies this`flight, this`reply
      ensures Snapshot() == Taken(old(Snapshot()), id)
    {
      flight := flight - {id};
      if reply == Bytes.Some(id) {
        reply := Bytes.None;
      }
    }

    /** The tokens go into their rows; a file that got none is skipped. */
    method TakeTokens(grant: Grant) returns (accepted: nat)
      requires Ready()
      modifies transfer
      ensures Ready() && transfer.state == old(transfer.state)
      ensures transfer.files == GrantAll(old(transfer.files), grant)
      ensures accepted > 0 <==> AnyGranted(old(transfer.files), grant)
    {
      accepted := 0;
      ghost var before := transfer.files;
      var row := 0;
      while row < |transfer.files|
        invariant Ready() && transfer.state == old(transfer.state)
        invariant 0 <= row <= |transfer.files| == |before|
        invariant forall i :: 0 <= i < row ==> transfer.files[i] == Granted(before[i], grant)
        invariant forall i :: row <= i < |before| ==> transfer.files[i] == before[i]
        invariant accepted > 0 <==> exists i :: 0 <= i < row && TokenFor(grant, before[i].id) != 0
      {
        var token := TokenFor(grant, transfer.files[row].id);
        if token == 0 {
          SetStatus(row, FileSkipped);
        } else {
          transfer.SetFileToken(row, token);
          accepted := accepted + 1;
        }
        row := row + 1;
      }
    }

    method OnPrepareFinished(id: ReplyId, status: int, grant: Option<Grant>, opens: set<nat>)
      requires Ready()
      modifies this, transfer
      ensures Ready() && Snapshot() == PrepareReply(old(Snapshot()), id, status, grant, opens)
    {
      TakeReply(id);
      if cancelled {
        return;
      }
      if status == 204 {
        Finish(State.Finished);
      } else if status == 401 {
        SetState(State.Idle);
      } else if status == 403 {
        Finish(State.Cancelled);
      } else if status != 200 || grant.None? {
        FailTransfer();
      } else {
        OnGranted(grant.value, opens);
      }
    }

    method OnGranted(grant: Grant, opens: set<nat>)
      requires Ready()
      modifies this, transfer
      ensures Ready()
      ensures Snapshot() ==
        var u := old(Snapshot()).(session := grant.session);
        if grant.session == 0 || grant.tokens == map[] then Fail(u)
        else if !AnyGranted(u.files, grant) then EndQuietly(u.(files := GrantAll(u.files, grant)), State.Finished)
        else StartNextFile(u.(files := GrantAll(u.files, grant), state := State.Active, currentRow := -1, uploading := true), opens)
    {
      session := grant.session;
      if session == 0 || grant.tokens == map[] {
        FailTransfer();
        return;
      }
      var accepted := TakeTokens(grant);
      if accepted == 0 {
        Finish(State.Finished);
        return;
      }
      StartUploading(opens);
    }

    method StartUploading(opens: set<nat>)
      requires Ready()
      modifies this, transfer
      ensures Ready()
      ensures Snapshot() == StartNextFile(old(Snapshot()).(state := State.Active, currentRow := -1, uploading := true), opens)
    {
      SetState(State.Active);
      currentRow := -1;
      uploading := true;
      OnStartNextFile(opens);
    }

    method OnUploadFinished(id: ReplyId, status: int, error: bool, opens: set<nat>)
      requires Ready()
      modifies this, transfer
      ensures Ready() && Snapshot() == UploadReply(old(Snapshot()), id, status, error, opens)
    {
      TakeReply(id);
      if cancelled {
        return;
      }
      if !error && 200 <= status < 300 {
        SetStatus(currentRow, FileDone);
      } else {
        SetStatus(currentRow, FileFailed);
        if status == 409 {
          FailTransfer();
          return;
        }
      }
      OnStartNextFile(opens);
    }

    method OnProgress(row: nat, sent: int)
      requires Ready()
      modifies transfer
      ensures Ready()
      ensures Snapshot() == old(Snapshot()).(files := WithTransferred(old(transfer.files), row, sent))
    {
      transfer.SetFileTransferred(row, sent);
    }

    /** One event, handled by the slot it is connected to. */
    method Handle(e: Event)
      requires Ready() && Enabled(Snapshot(), e)
      modifies this, transfer
      ensures Ready() && Snapshot() == Next(old(Snapshot()), e)
    {
      match e
      case UserSends(reachable, blocked, sources) => OnSendFiles(reachable, blocked, sources);
      case UserEntersPin(empty) => OnSubmitPin(empty);
      case UserCancels => OnCancel();
      case PrepareAnswered(id, status, grant, opens) => OnPrepareFinished(id, status, grant, opens);
      case UploadAnswered(id, status, error, opens) => OnUploadFinished(id, status, error, opens);
      case Progress(id, sent) => OnProgress(flight[id].row, sent);
    }
  }
}
