/** The receive service as an object: its fields, its slots, and the calls by which answering one
    connection can run further slots before it returns. */
module ReceiveService {
  import opened Transfers
  import opened Receive
  import opened TransferModel
  import Bytes
  import Sets
  import Naming

  lemma AnswerOne(conns: map<ConnId, Conn>, c: ConnId, status: int, drops: set<ConnId>)
    ensures AnswerAll(conns, {c}, status, drops)
            == if c in conns then conns[c := Mark(conns[c], status, c in drops)] else conns
  {
  }

  function FailAll(files: seq<FileEntry>, rows: set<nat>): (r: seq<FileEntry>)
    ensures |r| == |files|
  {
    seq(|files|, i requires 0 <= i < |files| => if i in rows then files[i].(status := FileFailed) else files[i])
  }

  lemma FailOneMore(files: seq<FileEntry>, rows: set<nat>, row: nat)
    ensures WithStatus(FailAll(files, rows), row, FileFailed) == FailAll(files, rows + {row})
  {
  }

  /** One more of the open uploads has been dealt with. */
  lemma OneMoreAnswered(conns: map<ConnId, Conn>, who: set<ConnId>, c: ConnId, status: int, drops: set<ConnId>)
    requires c !in who
    ensures AnswerAll(AnswerAll(conns, who, status, drops), {c}, status, drops) == AnswerAll(conns, who + {c}, status, drops)
  {
  }

  function Only(uploads: map<ConnId, Upload>, who: set<ConnId>): map<ConnId, Upload> {
    map c | c in uploads && c in who :: uploads[c]
  }

  lemma OneMoreUpload(uploads: map<ConnId, Upload>, who: set<ConnId>, c: ConnId)
    requires c in uploads && c !in who
    ensures RowsOf(Only(uploads, who + {c})) == RowsOf(Only(uploads, who)) + {uploads[c].row}
    ensures PartsOf(Only(uploads, who + {c})) == PartsOf(Only(uploads, who)) + {uploads[c].part}
  {
    var more, less := Only(uploads, who + {c}), Only(uploads, who);
    forall x | x in RowsOf(more)
      ensures x in RowsOf(less) + {uploads[c].row}
    {
      var d :| d in more && more[d].row == x;
      if d != c { assert d in less && less[d].row == x; }
    }
    forall x | x in RowsOf(less) + {uploads[c].row}
      ensures x in RowsOf(more)
    {
      if x in RowsOf(less) {
        var d :| d in less && less[d].row == x;
        assert d in more && more[d].row == x;
      } else {
        assert c in more && more[c].row == x;
      }
    }
    forall x | x in PartsOf(more)
      ensures x in PartsOf(less) + {uploads[c].part}
    {
      var d :| d in more && more[d].part == x;
      if d != c { assert d in less && less[d].part == x; }
    }
    forall x | x in PartsOf(less) + {uploads[c].part}
      ensures x in PartsOf(more)
    {
      if x in PartsOf(less) {
        var d :| d in less && less[d].part == x;
        assert d in more && more[d].part == x;
      } else {
        assert c in more && more[c].part == x;
      }
    }
  }

  lemma OneFewer(uploads: map<ConnId, Upload>, c: ConnId)
    requires c in uploads
    ensures |uploads - {c}| < |uploads|
  {
    assert (uploads - {c}).Keys == uploads.Keys - {c};
    assert |(uploads - {c}).Keys| == |uploads - {c}| && |uploads.Keys| == |uploads|;
  }

  /** The session is open and its tokens are out, but the sender has not been told. */
  function Opened(s: Service, directory: Text): Service {
    var files := WithTokens(s.files, s.issued + 2);
    s.(session := s.issued + 1, directory := directory,
       address := if s.pending.Some? && s.pending.value in s.conns then s.conns[s.pending.value].address else [],
       files := files, tokens := TokenTable(files), issued := s.issued + 1 + |files|,
       disk := s.disk - {ProbePath(directory)})
  }

  lemma AcceptedIs(s: Service, directory: Text, drops: set<ConnId>)
    requires s.pending.Some?
    ensures var t := Opened(s, directory);
            Receive.Accept(s, Bytes.Some(directory), drops)
            == t.(conns := AnswerAll(t.conns, {s.pending.value}, 200, drops), pending := Bytes.None, acceptTimer := false,
                  state := State.Active, idleTimer := true, log := t.log + [Started(t.session)])
  {
  }

  /** The next row gets its token. */
  lemma OneMoreToken(files: seq<FileEntry>, issued: nat, row: nat)
    requires row < |files|
    ensures var goal := WithTokens(files, issued + 1);
            && WithToken(goal[..row] + files[row..], row, issued + row + 1) == goal[..row + 1] + files[row + 1..]
            && TokenTable(goal[..row + 1]) == TokenTable(goal[..row])[files[row].id := issued + row + 1]
  {
    var goal := WithTokens(files, issued + 1);
    assert goal[..row + 1][..row] == goal[..row];
    assert WithToken(goal[..row] + files[row..], row, issued + row + 1) == goal[..row + 1] + files[row + 1..];
  }

  /** One open upload cut off. */
  function CutOff1(s: Service, c: ConnId, drops: set<ConnId>): Service
    requires c in s.uploads
  {
    Reply(DropUpload(s, c), c, 500, drops)
  }

  /** Those in `who` cut off, in no particular order. */
  function CutOffSome(s: Service, who: set<ConnId>, drops: set<ConnId>): Service {
    s.(uploads := s.uploads - who,
       conns := AnswerAll(s.conns, who, 500, drops),
       disk := s.disk - PartsOf(Only(s.uploads, who)),
       files := FailAll(s.files, RowsOf(Only(s.uploads, who))))
  }

  lemma CutOffNone(s: Service, drops: set<ConnId>)
    ensures CutOffSome(s, {}, drops) == s
  {
    assert Only(s.uploads, {}) == map[];
    assert AnswerAll(s.conns, {}, 500, drops) == s.conns && FailAll(s.files, {}) == s.files;
    assert s.uploads - {} == s.uploads && s.disk - {} == s.disk;
  }

  lemma CutOffNext(s: Service, who: set<ConnId>, c: ConnId, drops: set<ConnId>)
    requires c in s.uploads && c !in who
    ensures c in CutOffSome(s, who, drops).uploads
    ensures CutOff1(CutOffSome(s, who, drops), c, drops) == CutOffSome(s, who + {c}, drops)
  {
    OneMoreUpload(s.uploads, who, c);
    OneMoreAnswered(s.conns, who, c, 500, drops);
    FailOneMore(s.files, RowsOf(Only(s.uploads, who)), s.uploads[c].row);
    assert s.uploads - who - {c} == s.uploads - (who + {c});
    assert s.disk - PartsOf(Only(s.uploads, who)) - {s.uploads[c].part} == s.disk - PartsOf(Only(s.uploads, who + {c}));
  }

  /** Answering somebody whose closing concerns nobody. */
  lemma AnswerElsewhere(s: Service, c: ConnId, status: int, drops: set<ConnId>)
    requires c !in s.uploads && s.pending != Bytes.Some(c)
    ensures Receive.Respond(s, c, status, drops) == Reply(s, c, status, drops)
  {
    AnswerOne(s.conns, c, status, drops);
    assert c in s.conns ==> s.conns[c := s.conns[c]] == s.conns;
  }

  /** A session without uploads that is put away. */
  function Closed(s: Service, how: Ending): Service {
    var files := CutOffAll(s.files, {});
    s.(files := files, state := EndState(files, how), session := 0, address := [], directory := [], tokens := map[],
       log := s.log + [Ended(s.session)])
  }

  /** Everybody has been answered; `after` is what the model says by then. */
  function Swept(s: Service, drops: set<ConnId>, after: State): Service {
    var u := CutOffSome(s.(idleTimer := false, acceptTimer := false), s.uploads.Keys, drops);
    if s.pending.Some? then
      u.(conns := AnswerAll(u.conns, {s.pending.value}, 403, drops), pending := Bytes.None, state := after)
    else u
  }

  /** The steps of the ending add up to it. */
  lemma FinishAssembled(s: Service, t: Service, how: Ending, drops: set<ConnId>)
    requires s.session != 0 || (s.pending.Some? && s.uploads == map[])
    requires t == Swept(s, drops, t.state)
    ensures Receive.FinishSession(s, how, drops) == if s.session == 0 then t.(state := State.Cancelled) else Closed(t, how)
  {
    assert Only(s.uploads, s.uploads.Keys) == s.uploads && s.uploads - s.uploads.Keys == map[];
    CutAndSkipped(s.files, RowsOf(s.uploads));
  }

  class ReceiveService {
    const env: Env
    const transfer: TransferModel

    var conns: map<ConnId, Conn>
    var pending: Option<ConnId>
    var sessionId: Secret
    var sessionAddress: Text
    var sessionDirectory: Text
    var tokens: map<Text, Token>
    var uploads: map<ConnId, Upload>
    var acceptTimer: bool
    var idleTimer: bool
    var disk: map<Text, seq<Byte>>
    var issued: nat
    var stray: bool
    var log: seq<SessionEvent>

    ghost function Snapshot(): Service
      reads this, transfer
    {
      Service(conns, pending, sessionId, sessionAddress, sessionDirectory, tokens, uploads, acceptTimer, idleTimer,
              transfer.files, transfer.state, disk, issued, stray, log)
    }

    /** Enough for the slots to run one inside the other; what holds between events is more. */
    ghost predicate Sound()
      reads this, transfer
    {
      transfer.Sized() && (pending.Some? ==> pending.value !in uploads) && (sessionId == 0 ==> uploads == map[])
    }

    constructor (environment: Env, model: TransferModel, folder: map<Text, seq<Byte>>)
      requires model.Sized() && model.files == [] && model.state.Idle?
      ensures Sound() && env == environment && transfer == model
      ensures Snapshot() == Service(map[], Bytes.None, 0, [], [], map[], map[], false, false, [], Idle, folder, 0, false, [])
    {
      env, transfer := environment, model;
      conns, pending, sessionId, sessionAddress, sessionDirectory := map[], Bytes.None, 0, [], [];
      tokens, uploads, acceptTimer, idleTimer := map[], map[], false, false;
      disk, issued, stray, log := folder, 0, false, [];
    }

    // --- the model it reports to ----------------------------------------------------------

    method SetStatus(row: int, status: FileStatus)
      requires transfer.Sized()
      modifies transfer
      ensures transfer.Sized() && transfer.state == old(transfer.state)
      ensures transfer.files == WithStatus(old(transfer.files), row, status)
    {
      transfer.SetFileStatus(row, status);
    }

    method SetState(next: State)
      requires transfer.Sized()
      modifies transfer
      ensures transfer.Sized() && transfer.state == next && transfer.files == old(transfer.files)
    {
      var sameError: bool := *;
      transfer.SetState(next, sameError);
    }

    // --- answers and what they set off ----------------------------------------------------

    /** Answers `c`, once. If its socket is one of those that go down, the slots connected to its
        closing run before this returns. */
    method Respond(c: ConnId, status: int, drops: set<ConnId>)
      requires Sound()
      modifies this, transfer
      ensures Sound() && Snapshot() == Receive.Respond(old(Snapshot()), c, status, drops)
      decreases |uploads|, 2
    {
      AnswerOne(conns, c, status, drops);
      if c !in conns || conns[c].answered {
        return;
      }
      var wasOpen := conns[c].open;
      conns := conns[c := conns[c].(answered := true, statuses := conns[c].statuses + [status], open := wasOpen && c !in drops)];
      if wasOpen && c in drops {
        EmitClosed(c, drops);
      }
    }

    method EmitClosed(c: ConnId, drops: set<ConnId>)
      requires Sound()
      modifies this, transfer
      ensures Sound() && Snapshot() == SlotsOnClosed(old(Snapshot()), c, drops)
      decreases |uploads|, 1
    {
      if pending == Bytes.Some(c) {
        OnPendingClosed(c);
      } else if c in uploads {
        OnUploadClosed(c, drops);
      }
    }

    method OnPendingClosed(c: ConnId)
      requires Sound()
      modifies this, transfer
      ensures Sound() && Snapshot() == if old(pending) == Bytes.Some(c) then PendingGone(old(Snapshot())) else old(Snapshot())
    {
      if pending != Bytes.Some(c) {
        return;
      }
      pending := Bytes.None;
      acceptTimer := false;
      if sessionId == 0 {
        SetState(Idle);
      }
    }

    method OnUploadClosed(c: ConnId, drops: set<ConnId>)
      requires Sound() && c in uploads
      modifies this, transfer
      ensures Sound() && Snapshot() == FinishIfSettled(DropUpload(old(Snapshot()), c), drops)
      decreases |uploads|, 0
    {
      var upload := uploads[c];
      OneFewer(uploads, c);
      uploads := uploads - {c};
      disk := disk - {upload.part};
      SetStatus(upload.row, FileFailed);
      var over := transfer.IsOver();
      if over {
        FinishSession(Over, drops);
      }
    }

    /** Takes an upload out of the table and removes its part file; its connection's closing no longer
        concerns the service. */
    method CloseUpload(c: ConnId)
      requires Sound() && c in uploads
      modifies this`uploads, this`disk
      ensures Sound()
      ensures uploads == old(uploads) - {c} && disk == old(disk) - {old(uploads)[c].part}
    {
      var upload := uploads[c];
      uploads := uploads - {c};
      disk := disk - {upload.part};
    }

    method ReleasePending()
      modifies this`pending
      ensures pending.None?
    {
      pending := Bytes.None;
    }

    // --- the end of a session ---------------------------------------------------------------

    method CutOffOne(c: ConnId, drops: set<ConnId>)
      requires Sound() && c in uploads
      modifies this, transfer
      ensures Sound() && Snapshot() == CutOff1(old(Snapshot()), c, drops)
      decreases |uploads|, 0
    {
      var row := uploads[c].row;
      OneFewer(uploads, c);
      CloseUpload(c);
      SetStatus(row, FileFailed);
      AnswerElsewhere(Snapshot(), c, 500, drops);
      Respond(c, 500, drops);
    }

    /** Everything still streaming is cut off, in whatever order the table lists it. */
    method CutOffUploads(drops: set<ConnId>)
      requires Sound()
      modifies this, transfer
      ensures Sound() && Snapshot() == CutOffSome(old(Snapshot()), old(uploads).Keys, drops)
      decreases |uploads|, 3
    {
      var open := uploads.Keys;
      ghost var s := Snapshot();
      ghost var done: set<ConnId> := {};
      CutOffNone(s, drops);
      while open != {}
        invariant done + open == s.uploads.Keys && done !! open && Sound() && |uploads| <= |s.uploads|
        invariant Snapshot() == CutOffSome(s, done, drops)
        decreases open
      {
        var c :| c in open;
        open := open - {c};
        CutOffAnother(c, drops, s, done);
        done := done + {c};
      }
      assert done == s.uploads.Keys;
    }

    method CutOffAnother(c: ConnId, drops: set<ConnId>, ghost s: Service, ghost done: set<ConnId>)
      requires Sound() && c in s.uploads && c !in done && Snapshot() == CutOffSome(s, done, drops)
      modifies this, transfer
      ensures Sound() && Snapshot() == CutOffSome(s, done + {c}, drops) && |uploads| <= |s.uploads|
      decreases |uploads|, 1
    {
      CutOffNext(s, done, c, drops);
      CutOffOne(c, drops);
      Fewer(s.uploads, done + {c});
    }

    /** Files the sender never got round to. */
    method SkipTheRest()
      requires transfer.Sized()
      modifies transfer
      ensures transfer.Sized() && transfer.files == CutOffAll(old(transfer.files), {}) && transfer.state == old(transfer.state)
    {
      ghost var files := transfer.files;
      var row := 0;
      while row < |transfer.files|
        invariant 0 <= row <= |transfer.files| == |files| && transfer.Sized() && transfer.state == old(transfer.state)
        invariant forall i :: 0 <= i < |files| ==> transfer.files[i] == if i < row then CutOff(files[i], false) else files[i]
      {
        var status := transfer.files[row].status;
        if status.FileWaiting? || status.FileTransferring? {
          SetStatus(row, FileSkipped);
        }
        row := row + 1;
      }
    }

    method SetEndState(how: Ending)
      requires transfer.Sized()
      modifies transfer
      ensures transfer.Sized() && transfer.state == EndState(transfer.files, how) && transfer.files == old(transfer.files)
    {
      var done := transfer.CompletedCount();
      if how.Stopped? {
        SetState(State.Cancelled);
      } else if done == |transfer.files| {
        SetState(State.Finished);
      } else {
        SetState(State.Failed);
      }
    }

    /** The last steps, once nothing is streaming and nobody is waiting for an answer. */
    method CloseSession(how: Ending)
      requires Sound() && pending.None? && uploads == map[]
      modifies this, transfer
      ensures Sound() && Snapshot() == Closed(old(Snapshot()), how)
    {
      SkipTheRest();
      SetEndState(how);
      ForgetSession();
    }

    method ForgetSession()
      modifies this`log, this`sessionId, this`sessionAddress, this`sessionDirectory, this`tokens
      ensures log == old(log) + [Ended(old(sessionId))]
      ensures sessionId == 0 && sessionAddress == [] && sessionDirectory == [] && tokens == map[]
    {
      log := log + [Ended(sessionId)];
      sessionId := 0;
      sessionAddress := [];
      sessionDirectory := [];
      tokens := map[];
    }

    method FinishSession(how: Ending, drops: set<ConnId>)
      requires Sound()
      modifies this, transfer
      ensures Sound() && Snapshot() == Receive.FinishSession(old(Snapshot()), how, drops)
      decreases |uploads|, 5
    {
      ghost var s := Snapshot();
      var hadSession := sessionId != 0;
      if !hadSession && pending.None? {
        return;
      }
      AnswerEverybody(drops);
      FinishAssembled(s, Snapshot(), how, drops);
      if hadSession {
        CloseSession(how);
      } else {
        SetState(State.Cancelled);
      }
    }

    method AnswerEverybody(drops: set<ConnId>)
      requires Sound()
      modifies this, transfer
      ensures Sound() && pending.None? && uploads == map[]
      ensures Snapshot() == Swept(old(Snapshot()), drops, transfer.state)
      decreases |uploads|, 4
    {
      idleTimer := false;
      acceptTimer := false;
      CutOffUploads(drops);
      if pending.Some? {
        RefusePending(drops);
      }
    }

    /** Answers the parked request and lets it go; it may be gone by the time the answer returns. */
    method RefusePending(drops: set<ConnId>)
      requires Sound() && pending.Some? && !acceptTimer
      modifies this, transfer
      ensures Sound()
      ensures var s := old(Snapshot());
              Snapshot() == s.(conns := AnswerAll(s.conns, {s.pending.value}, 403, drops),
                               pending := Bytes.None, state := transfer.state)
      decreases |uploads|, 3
    {
      AnswerOne(conns, pending.value, 403, drops);
      Respond(pending.value, 403, drops);
      ReleasePending();
    }

    // --- prepare-upload ----------------------------------------------------------------------

    /** A request that was delivered whole; it expects one answer. */
    ghost predicate Asking(c: ConnId)
      reads this
    {
      c in conns && c !in uploads && pending != Bytes.Some(c)
    }

    method MarkDelivered(c: ConnId)
      requires Sound() && Asking(c)
      modifies this`conns
      ensures Sound() && Asking(c)
      ensures var s := old(Snapshot()); Snapshot() == s.(conns := s.conns[c := s.conns[c].(headSeen := true, complete := true)])
    {
      conns := conns[c := conns[c].(headSeen := true, complete := true)];
    }

    method Answer(c: ConnId, status: int, drops: set<ConnId>)
      requires Sound() && Asking(c)
      modifies this, transfer
      ensures Sound() && Snapshot() == Reply(old(Snapshot()), c, status, drops)
    {
      AnswerElsewhere(Snapshot(), c, status, drops);
      Respond(c, status, drops);
    }

    method OnPrepareUpload(c: ConnId, p: Prepare, drops: set<ConnId>)
      requires Sound() && Asking(c)
      modifies this, transfer
      ensures Sound() && Snapshot() == PrepareUpload(old(Snapshot()), c, p, drops)
    {
      MarkDelivered(c);
      if !p.enabled {
        Answer(c, 403, drops);
      } else if pending.Some? || sessionId != 0 {
        Answer(c, 409, drops);
      } else if !p.allowed {
        Answer(c, 429, drops);
      } else if !p.pinOk {
        Answer(c, 401, drops);
      } else if !p.hasInfo {
        Answer(c, 400, drops);
      } else if p.files == [] {
        Answer(c, 204, drops);
      } else if |p.files| > MAX_FILES {
        Answer(c, 400, drops);
      } else if !p.identityOk {
        Answer(c, 403, drops);
      } else if p.blocked {
        Answer(c, 403, drops);
      } else {
        ParkRequest(c, p.files);
        if p.quickSave {
          Accept(p.folder, drops);
        } else {
          acceptTimer := true;
        }
      }
    }

    /** The rows are built one descriptor at a time, and the connection is kept for later. */
    method ParkRequest(c: ConnId, descriptors: seq<Descriptor>)
      requires Sound() && c !in uploads
      modifies this`pending, transfer
      ensures Sound() && Snapshot() == old(Snapshot()).(files := EntriesOf(descriptors), state := State.Pending, pending := Bytes.Some(c))
    {
      var entries := BuildEntries(descriptors);
      BeginTransfer(entries);
      SetState(State.Pending);
      pending := Bytes.Some(c);
    }

    static method BuildEntries(descriptors: seq<Descriptor>) returns (entries: seq<FileEntry>)
      ensures entries == EntriesOf(descriptors)
    {
      entries := [];
      for i := 0 to |descriptors|
        invariant entries == EntriesOf(descriptors)[..i]
      {
        entries := entries + [EntryOf(descriptors[i])];
      }
    }

    method BeginTransfer(entries: seq<FileEntry>)
      requires transfer.Sized()
      modifies transfer
      ensures transfer.Sized() && transfer.files == entries && transfer.state == old(transfer.state)
    {
      transfer.Begin(entries);
    }

    method GenerateToken() returns (token: Secret)
      modifies this`issued
      ensures issued == old(issued) + 1 && token == issued
    {
      issued := issued + 1;
      token := issued;
    }

    /** One fresh token a row, entered under the row's id. */
    method IssueTokens()
      requires transfer.Sized()
      modifies this`issued, this`tokens, transfer
      ensures transfer.Sized() && transfer.state == old(transfer.state)
      ensures transfer.files == WithTokens(old(transfer.files), old(issued) + 1)
      ensures tokens == TokenTable(transfer.files) && issued == old(issued) + |transfer.files|
    {
      ghost var goal := WithTokens(transfer.files, issued + 1);
      tokens := map[];
      var row := 0;
      while row < |transfer.files|
        invariant 0 <= row <= |transfer.files| == |goal| && transfer.Sized() && transfer.state == old(transfer.state)
        invariant transfer.files == goal[..row] + old(transfer.files)[row..]
        invariant tokens == TokenTable(goal[..row]) && issued == old(issued) + row
      {
        var token := GenerateToken();
        var fileId := transfer.files[row].id;
        SetToken(row, token);
        tokens := tokens[fileId := token];
        OneMoreToken(old(transfer.files), old(issued), row);
        row := row + 1;
      }
      assert goal[..row] == goal && transfer.files == goal;
    }

    method SetToken(row: int, token: Token)
      requires transfer.Sized()
      modifies transfer
      ensures transfer.Sized() && transfer.state == old(transfer.state)
      ensures transfer.files == WithToken(old(transfer.files), row, token)
    {
      transfer.SetFileToken(row, token);
    }

    method Accept(folder: Option<Text>, drops: set<ConnId>)
      requires Sound()
      modifies this, transfer
      ensures Sound() && Snapshot() == Receive.Accept(old(Snapshot()), folder, drops)
    {
      if pending.None? {
        return;
      }
      if folder.None? {
        AnswerPending(500, State.Failed, drops);
        return;
      }
      AcceptedIs(Snapshot(), folder.value, drops);
      OpenFor(folder.value);
      AnswerPending(200, State.Active, drops);
      idleTimer := true;
      log := log + [Started(sessionId)];
    }

    method OpenFor(directory: Text)
      requires Sound() && pending.Some?
      modifies this`disk, this`sessionId, this`sessionAddress, this`sessionDirectory, this`issued, this`tokens, transfer
      ensures Sound() && Snapshot() == Opened(old(Snapshot()), directory)
    {
      OpenSession(directory);
    }

    /** The parked request is answered and let go, and its timer stopped; all of which may already
        have happened when the answer returns. */
    method AnswerPending(status: int, next: State, drops: set<ConnId>)
      requires Sound() && pending.Some?
      modifies this, transfer
      ensures Sound()
      ensures var s := old(Snapshot());
              Snapshot() == s.(conns := AnswerAll(s.conns, {s.pending.value}, status, drops),
                               pending := Bytes.None, acceptTimer := false, state := next)
    {
      AnswerOne(conns, pending.value, status, drops);
      Respond(pending.value, status, drops);
      ReleasePending();
      acceptTimer := false;
      SetState(next);
    }

    method OpenSession(directory: Text)
      requires transfer.Sized() && pending.Some?
      modifies this`disk, this`sessionId, this`sessionAddress, this`sessionDirectory, this`issued, this`tokens, transfer
      ensures transfer.Sized() && transfer.state == old(transfer.state)
      ensures sessionId == old(issued) + 1 && sessionDirectory == directory
      ensures sessionAddress == if pending.value in conns then conns[pending.value].address else []
      ensures transfer.files == WithTokens(old(transfer.files), old(issued) + 2)
      ensures tokens == TokenTable(transfer.files) && issued == old(issued) + 1 + |transfer.files|
      ensures disk == old(disk) - {ProbePath(directory)}
    {
      // The probe file is created and removed again before anything else happens.
      disk := disk - {ProbePath(directory)};
      sessionId := GenerateToken();
      sessionAddress := if pending.value in conns then conns[pending.value].address else [];
      sessionDirectory := directory;
      IssueTokens();
    }

    method Decline(drops: set<ConnId>)
      requires Sound()
      modifies this, transfer
      ensures Sound() && Snapshot() == Receive.Decline(old(Snapshot()), drops)
    {
      if pending.None? {
        return;
      }
      AnswerPending(403, State.Idle, drops);
    }

    method OnAcceptTimeout(drops: set<ConnId>)
      requires Sound()
      modifies this, transfer
      ensures Sound() && Snapshot() == Receive.AcceptTimeout(old(Snapshot()), drops)
    {
      Decline(drops);
      acceptTimer := false;
    }

    // --- uploads -----------------------------------------------------------------------------

    method OnUploadHeaders(c: ConnId, r: UploadRequest, opens: bool, drops: set<ConnId>)
      requires Sound() && Asking(c)
      modifies this, transfer
      ensures Sound() && Snapshot() == UploadHead(old(Snapshot()), c, r, opens, drops)
    {
      conns := conns[c := conns[c].(headSeen := true)];
      var status, row := CheckUpload(c, r);
      if status != 0 {
        Answer(c, status, drops);
      } else {
        AdmitUpload(c, row, r.length, opens, drops);
      }
    }

    /** The status an upload is answered with before its body, 0 to let it through to `row`. */
    method CheckUpload(c: ConnId, r: UploadRequest) returns (status: int, row: int)
      requires c in conns
      ensures status == Admission(Snapshot(), c, r)
      ensures status == 0 ==> row == RowOfId(transfer.files, r.fileId) && row >= 0 && sessionId != 0
    {
      row := -1;
      if r.session == 0 || r.fileId == [] || r.token == 0 {
        return 400, row;
      }
      if sessionId == 0 || r.session != sessionId {
        return 409, row;
      }
      var token := if r.fileId in tokens then tokens[r.fileId] else 0;
      if token != r.token || conns[c].address != sessionAddress {
        return 403, row;
      }
      row := transfer.IndexOfFile(r.fileId);
      if row < 0 {
        return 400, row;
      }
      if transfer.files[row].status.FileDone? {
        return 200, row;
      }
      return 0, row;
    }

    method AdmitUpload(c: ConnId, row: nat, length: int, opens: bool, drops: set<ConnId>)
      requires Sound() && Asking(c) && row < |transfer.files| && sessionId != 0
      modifies this, transfer
      ensures Sound() && Snapshot() == TakeUpload(old(Snapshot()), c, row, length, opens, drops)
    {
      var final := Naming.ReserveFilePath(disk.Keys, sessionDirectory, transfer.files[row].fileName);
      if final.None? || !opens {
        RefuseRow(c, row, drops);
        return;
      }
      var size := transfer.files[row].size;
      StartUpload(c, row, final.value);
      if length > size {
        Respond(c, 413, drops);
      }
    }

    method RefuseRow(c: ConnId, row: nat, drops: set<ConnId>)
      requires Sound() && Asking(c)
      modifies this, transfer
      ensures Sound() && Snapshot() == FailRow(old(Snapshot()), c, row, drops)
    {
      SetStatus(row, FileFailed);
      Answer(c, 500, drops);
    }

    /** The slot for its closing is connected before the body is accepted. */
    method StartUpload(c: ConnId, row: nat, final: Text)
      requires Sound() && Asking(c) && row < |transfer.files| && sessionId != 0
      modifies this, transfer
      ensures Sound() && Snapshot() == OpenUpload(old(Snapshot()), c, row, final)
    {
      var part := final + Naming.PART;
      var ceiling := transfer.files[row].size;
      disk := disk[part := []];
      uploads := uploads[c := Upload(row, part, final, [])];
      SetStatus(row, FileTransferring);
      idleTimer := true;
      conns := conns[c := conns[c].(sink := Bytes.Some(Sink(part, ceiling)))];
    }

    /** A block of a body that is being streamed. */
    method OnBlock(c: ConnId, data: seq<Byte>, taken: nat, drops: set<ConnId>)
      requires Sound() && c in conns && conns[c].sink.Some? && taken <= |data|
      modifies this, transfer
      ensures Sound() && Snapshot() == UploadData(old(Snapshot()), c, data, taken, drops)
    {
      var total := conns[c].received + |data|;
      if total > conns[c].sink.value.ceiling {
        Respond(c, 413, drops);
        return;
      }
      Write(c, data[..taken]);
      if taken < |data| {
        Respond(c, 500, drops);
        return;
      }
      OnProgress(c, total);
    }

    /** What reaches the file goes into the digest as well, and nothing else does. */
    method Write(c: ConnId, data: seq<Byte>)
      requires Sound() && c in conns && conns[c].sink.Some?
      modifies this`disk, this`uploads, this`stray
      ensures Sound() && Snapshot() == Written(old(Snapshot()), c, data)
    {
      var part := conns[c].sink.value.part;
      if c in uploads && uploads[c].part == part && part in disk {
        disk := disk[part := disk[part] + data];
        uploads := uploads[c := uploads[c].(hashed := uploads[c].hashed + data)];
      } else {
        stray := true;
      }
    }

    method OnProgress(c: ConnId, total: nat)
      requires Sound() && c in conns
      modifies this`conns, this`idleTimer, transfer
      ensures Sound() && Snapshot() == Progress(old(Snapshot()), c, total)
    {
      conns := conns[c := conns[c].(received := total)];
      if c in uploads {
        transfer.SetFileTransferred(uploads[c].row, total);
        idleTimer := true;
      }
    }

    method OnBodyEnd(c: ConnId, renames: bool, drops: set<ConnId>)
      requires Sound() && c in conns && pending != Bytes.Some(c)
      requires c in uploads ==> uploads[c].row < |transfer.files| && uploads[c].part in disk
      modifies this, transfer
      ensures Sound() && Snapshot() == UploadEnd(env, old(Snapshot()), c, renames, drops)
    {
      conns := conns[c := conns[c].(complete := true)];
      if c !in uploads {
        Answer(c, 400, drops);
        return;
      }
      var status := FinishUpload(c, renames);
      ReportUpload(c, status, drops);
    }

    method ReportUpload(c: ConnId, status: int, drops: set<ConnId>)
      requires Sound() && Asking(c)
      modifies this, transfer
      ensures Sound()
      ensures Snapshot() == FinishIfSettled(Reply(old(Snapshot()), c, status, drops).(idleTimer := true), drops)
    {
      Answer(c, status, drops);
      idleTimer := true;
      var over := transfer.IsOver();
      if over {
        FinishSession(Over, drops);
      }
    }

    /** The file is checked against what was agreed to, and kept or removed. */
    method FinishUpload(c: ConnId, renames: bool) returns (status: int)
      requires Sound() && c in conns && c in uploads && pending != Bytes.Some(c)
      requires uploads[c].row < |transfer.files| && uploads[c].part in disk
      modifies this, transfer
      ensures Sound() && c !in uploads && pending == old(pending) && c in conns
      ensures Snapshot() == Conclude(env, old(Snapshot()), c, renames)
      ensures status == Outcome(env, old(Snapshot()), old(uploads)[c])
    {
      var upload := uploads[c];
      uploads := uploads - {c};
      var file := transfer.files[upload.row];
      if |disk[upload.part]| < file.size {
        disk := disk - {upload.part};
        SetStatus(upload.row, FileFailed);
        return 500;
      }
      if !env.accepts(upload.hashed, file.sha256) {
        disk := disk - {upload.part};
        SetStatus(upload.row, FileFailed);
        return 422;
      }
      KeepFile(upload, renames);
      return 200;
    }

    /** The destination is never removed first: if something is there the rename fails, and the bytes
        stay under the part file's name. */
    method KeepFile(upload: Upload, renames: bool)
      requires Sound() && upload.part in disk
      modifies this`disk, transfer
      ensures Sound() && Snapshot() == Settle(old(Snapshot()), upload, renames)
    {
      if renames && upload.final !in disk {
        disk := (disk - {upload.part})[upload.final := disk[upload.part]];
        SetLocalPath(upload.row, upload.final);
      } else {
        assert (disk - {upload.part})[upload.part := disk[upload.part]] == disk;
        SetLocalPath(upload.row, upload.part);
      }
      SetStatus(upload.row, FileDone);
    }

    method SetLocalPath(row: int, path: Text)
      requires transfer.Sized()
      modifies transfer
      ensures transfer.Sized() && transfer.state == old(transfer.state)
      ensures transfer.files == WithLocalPath(old(transfer.files), row, path)
    {
      transfer.SetFileLocalPath(row, path);
    }

    // --- cancelling, timers and sockets ----------------------------------------------------------

    method OnCancelRequest(c: ConnId, session: Secret, drops: set<ConnId>)
      requires Sound() && Asking(c)
      modifies this, transfer
      ensures Sound() && Snapshot() == PeerCancel(old(Snapshot()), c, session, drops)
    {
      MarkDelivered(c);
      Answer(c, 200, drops);
      if pending.Some? && sessionId == 0 {
        ReleasePending();
        acceptTimer := false;
        SetState(State.Cancelled);
      } else if sessionId != 0 && (session == 0 || session == sessionId) {
        FinishSession(Stopped, drops);
      }
    }

    method Cancel(drops: set<ConnId>)
      requires Sound()
      modifies this, transfer
      ensures Sound() && Snapshot() == UserCancel(old(Snapshot()), drops)
    {
      if pending.Some? && sessionId == 0 {
        Decline(drops);
      } else if sessionId != 0 {
        FinishSession(Stopped, drops);
      }
    }

    method OnSessionIdle(drops: set<ConnId>)
      requires Sound()
      modifies this, transfer
      ensures Sound() && Snapshot() == SessionIdle(old(Snapshot()), drops)
    {
      idleTimer := false;
      if sessionId != 0 {
        FinishSession(Over, drops);
      }
    }

    method OnSocketGone(c: ConnId, drops: set<ConnId>)
      requires Sound()
      modifies this, transfer
      ensures Sound() && Snapshot() == SocketGone(old(Snapshot()), c, drops)
    {
      if c in conns && conns[c].open {
        conns := conns[c := conns[c].(open := false, answered := true)];
        EmitClosed(c, drops);
      }
    }

    method OnConnected(c: ConnId, address: Text)
      requires Sound() && c !in conns
      modifies this`conns
      ensures Sound()
      ensures var s := old(Snapshot());
              Snapshot() == s.(conns := s.conns[c := Conn(address, true, false, false, false, Bytes.None, 0, [])])
    {
      conns := conns[c := Conn(address, true, false, false, false, Bytes.None, 0, [])];
    }

    method OnConnTimeout(c: ConnId, drops: set<ConnId>)
      requires Sound() && c in conns
      modifies this, transfer
      ensures Sound()
      ensures var s := old(Snapshot());
              Snapshot() == if s.conns[c].answered then SocketGone(s, c, drops) else Receive.Respond(s, c, 408, drops)
    {
      if conns[c].answered {
        OnSocketGone(c, drops);
      } else {
        Respond(c, 408, drops);
      }
    }

    method OnOtherRequest(c: ConnId, status: int, drops: set<ConnId>)
      requires Sound() && Asking(c)
      modifies this, transfer
      ensures Sound()
      ensures var s := old(Snapshot());
              Snapshot() == Reply(s.(conns := s.conns[c := s.conns[c].(headSeen := true, complete := true)]), c, status, drops)
    {
      MarkDelivered(c);
      Answer(c, status, drops);
    }
  }

  lemma Fewer(uploads: map<ConnId, Upload>, who: set<ConnId>)
    ensures |uploads - who| <= |uploads|
  {
    var rest := uploads - who;
    assert rest.Keys <= uploads.Keys;
    Sets.SubsetSize(rest.Keys, uploads.Keys);
    assert |rest.Keys| == |rest| && |uploads.Keys| == |uploads|;
  }

  /** Failing the rows that were cut off and then skipping the rest is what ending a session does. */
  lemma CutAndSkipped(files: seq<FileEntry>, rows: set<nat>)
    ensures CutOffAll(FailAll(files, rows), {}) == CutOffAll(files, rows)
  {
  }
}
