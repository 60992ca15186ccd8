/** Runs of the receiving side from its first moment: a finished row is lost to a second upload of its
    file, a session is left open with nothing to wait for, and a parked request is dropped unanswered. */
module ReceiveWitness {
  import opened Transfers
  import opened Receive
  import opened ReceiveInvariant
  import opened ReceiveSafety
  import opened ReceiveRows
  import opened ReceiveStable
  import opened ReceiveLinger
  import RF = ReceiveFrame
  import Bytes
  import Naming
  import NamingExhausted
  import Sets

  /** Some run from an empty folder leads here. */
  ghost predicate Reachable(env: Env, s: Service) {
    exists turns :: RunAll(env, INITIAL, turns) == s
  }

  lemma {:induction false} OneMore(env: Env, s: Service, turns: seq<Turn>, turn: Turn)
    ensures RunAll(env, s, turns + [turn]) == Take(env, RunAll(env, s, turns), turn)
    decreases |turns|
  {
    if turns == [] {
      assert [turn][1..] == [];
      assert turns + [turn] == [turn];
      assert RunAll(env, s, [turn]) == RunAll(env, Take(env, s, turn), []);
    } else {
      assert (turns + [turn])[1..] == turns[1..] + [turn];
      OneMore(env, Take(env, s, turns[0]), turns[1..], turn);
    }
  }

  lemma ReachNext(env: Env, s: Service, e: Event, drops: set<ConnId>)
    requires Reachable(env, s) && Enabled(s, e)
    ensures Reachable(env, Next(env, s, e, drops))
  {
    var turns :| RunAll(env, INITIAL, turns) == s;
    OneMore(env, INITIAL, turns, (e, drops));
  }

  lemma ReachFirst(env: Env)
    ensures Reachable(env, INITIAL)
  {
    assert RunAll(env, INITIAL, []) == INITIAL;
  }

  lemma ReachableInv(env: Env, s: Service)
    requires Reachable(env, s)
    ensures Inv(env, s)
  {
    var turns :| RunAll(env, INITIAL, turns) == s;
    InitialInv(env, map[]);
    assert INITIAL.(disk := map[]) == INITIAL;
    RunKeeps(env, INITIAL, turns);
  }

  // --- a session begins ---------------------------------------------------------------------------

  function Fresh(address: Text): Conn {
    Conn(address, true, false, false, false, Bytes.None, 0, [])
  }

  /** The request of `files` was granted at once, and nothing has been sent yet. */
  ghost predicate Granted(s: Service, address: Text, files: seq<FileEntry>) {
    && s.session == 1 && s.address == address && s.pending.None? && s.uploads == map[] && s.disk == map[]
    && s.files == WithTokens(files, 2) && s.tokens == TokenTable(s.files)
    && s.conns.Keys == {0}
  }

  lemma AcceptGrants(s: Service, directory: Text, address: Text, files: seq<FileEntry>)
    requires s.pending == Bytes.Some(0) && s.conns.Keys == {0} && s.conns[0].address == address
    requires s.issued == 0 && s.uploads == map[] && s.disk == map[] && s.files == files
    ensures Granted(Accept(s, Bytes.Some(directory), {}), address, files)
  {
  }

  lemma PrepareAccepts(s: Service, p: Prepare)
    requires 0 in s.conns && Verdict(s, p) == 0 && p.quickSave
    ensures PrepareUpload(s, 0, p, {})
            == Accept(s.(conns := s.conns[0 := s.conns[0].(headSeen := true, complete := true)],
                         files := EntriesOf(p.files), state := State.Pending, pending := Bytes.Some(0)), p.folder, {})
  {
  }

  lemma Starts(env: Env, address: Text, directory: Text, offered: seq<Descriptor>) returns (s: Service)
    requires 0 < |offered| <= MAX_FILES
    ensures Reachable(env, s) && Granted(s, address, EntriesOf(offered))
  {
    ReachFirst(env);
    ReachNext(env, INITIAL, Connected(0, address), {});
    var t := INITIAL.(conns := map[0 := Fresh(address)]);
    assert Next(env, INITIAL, Connected(0, address), {}) == t;
    var p := Prepare(true, true, true, true, offered, true, false, true, Bytes.Some(directory));
    ReachNext(env, t, PrepareRequest(0, p), {});
    PrepareAccepts(t, p);
    var seen := t.(conns := t.conns[0 := t.conns[0].(headSeen := true, complete := true)],
                   files := EntriesOf(p.files), state := State.Pending, pending := Bytes.Some(0));
    AcceptGrants(seen, directory, address, EntriesOf(offered));
    s := Next(env, t, PrepareRequest(0, p), {});
  }

  // --- an upload of the first row --------------------------------------------------------------------

  function Head(id: Text): UploadRequest {
    UploadRequest(1, id, 2, 0)
  }

  /** The first row is empty and not finished yet; an upload of it under `id` would be admitted. */
  ghost predicate Waits(env: Env, s: Service, address: Text, id: Text) {
    && Reachable(env, s) && s.session == 1 && s.address == address && TokenFor(s, id) == 2
    && s.files != [] && s.files[0].id == id != [] && s.files[0].size == 0 && s.files[0].sha256 == []
    && !IsDone(s.files[0])
  }

  ghost predicate OthersWait(files: seq<FileEntry>) {
    forall i :: 0 < i < |files| ==> files[i].status.FileWaiting?
  }

  lemma Comes(env: Env, s: Service, address: Text, id: Text, c: ConnId) returns (t: Service)
    requires Waits(env, s, address, id) && c !in s.conns
    ensures Waits(env, t, address, id) && c in t.conns && t == s.(conns := s.conns[c := Fresh(address)])
  {
    ReachNext(env, s, Connected(c, address), {});
    t := Next(env, s, Connected(c, address), {});
  }

  lemma Admitted(env: Env, s: Service, address: Text, id: Text, c: ConnId)
    requires Waits(env, s, address, id) && c in s.conns && s.conns[c].address == address
    ensures Admission(s, c, Head(id)) == 0 && RowOfId(s.files, id) == 0
  {
    RowOfIdFirst(s.files, id, 0);
  }

  lemma AName(s: Service, fileName: Text)
    requires |s.disk| < Naming.TRIES
    ensures Naming.Reserve(s.disk.Keys, s.directory, fileName).Some?
  {
    if Naming.Reserve(s.disk.Keys, s.directory, fileName).None? {
      NamingExhausted.RefusedOnlyWhenFull(s.disk.Keys, s.directory, fileName);
      Sets.SubsetSize(NamingExhausted.Children(s.disk.Keys, s.directory), s.disk.Keys);
    }
  }

  lemma TakesPlainly(s: Service, c: ConnId, row: nat, final: Text)
    requires c in s.conns && row < |s.files| && Naming.Reserve(s.disk.Keys, s.directory, s.files[row].fileName) == Bytes.Some(final)
    ensures TakeUpload(s, c, row, 0, true, {}) == OpenUpload(s, c, row, final)
  {
  }

  lemma OpensPlainly(env: Env, s: Service, address: Text, id: Text, c: ConnId) returns (final: Text)
    requires Waits(env, s, address, id) && c in s.conns && s.conns[c] == Fresh(address) && |s.disk| < Naming.TRIES
    ensures UploadHead(s, c, Head(id), true, {}) == OpenUpload(HeadSeen(s, c), c, 0, final)
  {
    Admitted(env, s, address, id, c);
    AName(s, s.files[0].fileName);
    HeadIsTake(s, c, Head(id), true, {});
    final := Naming.Reserve(s.disk.Keys, s.directory, s.files[0].fileName).value;
    TakesPlainly(HeadSeen(s, c), c, 0, final);
  }

  /** `t` has one more upload than `s`, of the first row. */
  ghost predicate OneMoreUpload(s: Service, t: Service, c: ConnId) {
    && t.uploads.Keys == s.uploads.Keys + {c} && t.uploads[c].row == 0
    && (forall d :: d in s.uploads && d != c ==> t.uploads[d] == s.uploads[d])
    && OnlyRead(s.conns, t.conns, c)
    && |t.files| == |s.files| && (OthersWait(s.files) ==> OthersWait(t.files))
    && |t.disk| <= |s.disk| + 1
  }

  ghost predicate OnlyRead(a: map<ConnId, Conn>, b: map<ConnId, Conn>, c: ConnId) {
    && b.Keys == a.Keys && c in b && !b[c].answered
    && (forall d :: d in a && d != c ==> b[d] == a[d])
  }

  lemma OpenedConns(s: Service, c: ConnId, final: Text)
    requires c in s.conns && s.files != [] && !s.conns[c].answered
    ensures OnlyRead(s.conns, OpenUpload(HeadSeen(s, c), c, 0, final).conns, c)
  {
  }

  lemma OpenedRows(s: Service, c: ConnId, final: Text)
    requires c in s.conns && s.files != []
    ensures var files := OpenUpload(HeadSeen(s, c), c, 0, final).files;
            |files| == |s.files| && (OthersWait(s.files) ==> OthersWait(files))
  {
  }

  lemma PutSize(disk: map<Text, seq<Byte>>, path: Text, data: seq<Byte>)
    ensures |disk[path := data]| <= |disk| + 1
  {
    assert disk[path := data].Keys == disk.Keys + {path};
  }

  lemma OpenedOneMore(s: Service, c: ConnId, final: Text)
    requires c in s.conns && s.files != [] && !s.conns[c].answered
    ensures OneMoreUpload(s, OpenUpload(HeadSeen(s, c), c, 0, final), c)
  {
    PutSize(s.disk, final + Naming.PART, []);
    OpenedConns(s, c, final);
    OpenedRows(s, c, final);
  }

  lemma Begins(env: Env, s: Service, address: Text, id: Text, c: ConnId) returns (t: Service)
    requires Waits(env, s, address, id) && c in s.conns && s.conns[c] == Fresh(address) && |s.disk| < Naming.TRIES
    ensures Waits(env, t, address, id) && OneMoreUpload(s, t, c)
  {
    var final := OpensPlainly(env, s, address, id, c);
    OpenedOneMore(s, c, final);
    var e := UploadHeaders(c, Head(id), true);
    ReachNext(env, s, e, {});
    t := Next(env, s, e, {});
    assert t == OpenUpload(HeadSeen(s, c), c, 0, final);
  }

  lemma EndKeeps(env: Env, s: Service, c: ConnId)
    requires Inv(env, s) && c in s.uploads && !s.conns[c].answered && s.uploads[c].row == 0 < |s.files|
    requires s.files[0].size == 0 && s.files[0].sha256 == [] && env.accepts([], [])
    ensures Enabled(s, BodyEnd(c, true)) && Outcome(env, s, s.uploads[c]) == 200
  {
    assert UploadOk(s, c);
  }

  lemma EndSettles(env: Env, s: Service, c: ConnId)
    requires Enabled(s, BodyEnd(c, true)) && c in s.uploads && Outcome(env, s, s.uploads[c]) == 200 && s.uploads[c].row == 0
    requires |s.files| > 1 && OthersWait(s.files)
    ensures var t := UploadEnd(env, s, c, true, {});
            && t.session == s.session && t.uploads == s.uploads - {c} && |t.files| == |s.files|
            && IsDone(t.files[0]) && OthersWait(t.files)
  {
    var seen := s.(conns := s.conns[c := s.conns[c].(complete := true)]);
    var v := Reply(Settle(seen.(uploads := seen.uploads - {c}), s.uploads[c], true), c, 200, {}).(idleTimer := true);
    assert forall i :: 0 < i < |s.files| ==> v.files[i] == s.files[i];
    assert !Settled(v.files[1]);
    assert UploadEnd(env, s, c, true, {}) == FinishIfSettled(v, {});
  }

  /** Two uploads of the first of two files. */
  lemma BothBegin(env: Env, s: Service, address: Text, id: Text) returns (t: Service)
    requires Waits(env, s, address, id) && s.conns.Keys == {0} && s.disk == map[] && s.uploads == map[]
    requires |s.files| == 2 && OthersWait(s.files)
    ensures Waits(env, t, address, id) && |t.files| == 2 && OthersWait(t.files)
    ensures t.uploads.Keys == {1, 2} && t.uploads[1].row == 0 && t.uploads[2].row == 0
    ensures 1 in t.conns && !t.conns[1].answered
  {
    var a := Comes(env, s, address, id, 1);
    var b := Begins(env, a, address, id, 1);
    var c := Comes(env, b, address, id, 2);
    t := Begins(env, c, address, id, 2);
  }

  /** One of them has been received. */
  lemma Twice(env: Env, s: Service, address: Text, id: Text) returns (t: Service)
    requires Waits(env, s, address, id) && s.conns.Keys == {0} && s.disk == map[] && s.uploads == map[]
    requires |s.files| == 2 && OthersWait(s.files) && env.accepts([], [])
    ensures Reachable(env, t) && t.session == 1 && |t.files| == 2 && IsDone(t.files[0]) && OthersWait(t.files)
    ensures t.uploads.Keys == {2} && t.uploads[2].row == 0
  {
    var d := BothBegin(env, s, address, id);
    ReachableInv(env, d);
    t := EndsFirst(env, d);
  }

  lemma EndsFirst(env: Env, s: Service) returns (t: Service)
    requires Reachable(env, s) && Inv(env, s) && s.session == 1 && |s.files| == 2 && OthersWait(s.files)
    requires s.uploads.Keys == {1, 2} && s.uploads[1].row == 0 && s.uploads[2].row == 0 && !s.conns[1].answered
    requires s.files[0].size == 0 && s.files[0].sha256 == [] && env.accepts([], [])
    ensures Reachable(env, t) && t.session == 1 && |t.files| == 2 && IsDone(t.files[0]) && OthersWait(t.files)
    ensures t.uploads.Keys == {2} && t.uploads[2].row == 0
  {
    EndKeeps(env, s, 1);
    EndSettles(env, s, 1);
    ReachNext(env, s, BodyEnd(1, true), {});
    t := UploadEnd(env, s, 1, true, {});
  }

  lemma NoDigest(d: Descriptor, text: Text, limit: nat)
    requires text == []
    ensures Naming.SanitizeText(text, limit) == []
  {
  }

  lemma EntryEmpty(d: Descriptor)
    requires d.sha256 == [] && d.size == 0
    ensures var f := EntryOf(d); f.id == d.id && f.size == 0 && f.sha256 == [] && f.token == 0 && f.status.FileWaiting?
  {
    NoDigest(d, d.sha256, 128);
  }

  lemma FirstToken(files: seq<FileEntry>)
    requires |files| == 1 || (|files| == 2 && files[1].id != files[0].id)
    ensures files[0].id in TokenTable(files) && TokenTable(files)[files[0].id] == files[0].token
  {
    assert TokenTable(files[..0]) == map[];
    if |files| == 1 {
    } else {
      assert files[..1][..0] == [];
      assert TokenTable(files[..1]) == TokenTable([])[files[0].id := files[0].token];
    }
  }

  /** The row of a file of no bytes, once it has its token. */
  predicate EmptyRow(d: Descriptor, f: FileEntry, token: Token) {
    f.id == d.id && f.size == 0 && f.sha256 == [] && f.token == token && f.status.FileWaiting?
  }

  lemma RowStarts(d: Descriptor, f: FileEntry, token: Token)
    requires d.sha256 == [] && d.size == 0 && f == EntryOf(d).(token := token)
    ensures EmptyRow(d, f, token)
  {
    EntryEmpty(d);
  }

  lemma EntryAt(offered: seq<Descriptor>, i: nat, f: FileEntry)
    requires i < |offered| && f == EntriesOf(offered)[i]
    ensures f == EntryOf(offered[i])
  {
  }

  lemma TokenAt(entries: seq<FileEntry>, files: seq<FileEntry>, i: nat)
    requires i < |entries| && files == WithTokens(entries, 2)
    ensures |files| == |entries| && files[i] == entries[i].(token := 2 + i)
  {
  }

  lemma RowAt(offered: seq<Descriptor>, files: seq<FileEntry>, i: nat)
    requires i < |offered| && offered[i].size == 0 && offered[i].sha256 == []
    requires files == WithTokens(EntriesOf(offered), 2)
    ensures |files| == |offered| && EmptyRow(offered[i], files[i], 2 + i)
  {
    var entries, d := EntriesOf(offered), offered[i];
    TokenAt(entries, files, i);
    EntryAt(offered, i, entries[i]);
    RowStarts(d, files[i], 2 + i);
  }

  lemma RowsStart(offered: seq<Descriptor>, files: seq<FileEntry>)
    requires forall i :: 0 <= i < |offered| ==> offered[i].size == 0 && offered[i].sha256 == []
    requires files == WithTokens(EntriesOf(offered), 2)
    ensures |files| == |offered|
    ensures forall i: nat :: i < |files| ==> EmptyRow(offered[i], files[i], 2 + i)
  {
    forall i: nat | i < |files|
      ensures EmptyRow(offered[i], files[i], 2 + i)
    {
      RowAt(offered, files, i);
    }
  }

  lemma StartWaits(env: Env, address: Text, directory: Text, offered: seq<Descriptor>) returns (s: Service)
    requires |offered| == 1 || (|offered| == 2 && offered[1].id != offered[0].id)
    requires offered[0].id != [] && forall i :: 0 <= i < |offered| ==> offered[i].size == 0 && offered[i].sha256 == []
    ensures Waits(env, s, address, offered[0].id) && s.conns.Keys == {0} && s.disk == map[] && s.uploads == map[]
    ensures |s.files| == |offered| && OthersWait(s.files)
  {
    s := Starts(env, address, directory, offered);
    RowsStart(offered, s.files);
    assert EmptyRow(offered[0], s.files[0], 2);
    if |offered| == 2 { assert EmptyRow(offered[1], s.files[1], 3); }
    FirstToken(s.files);
  }

  lemma SecondLost(env: Env, s: Service)
    requires Reachable(env, s) && s.session == 1 && |s.files| == 2 && IsDone(s.files[0]) && OthersWait(s.files)
    requires s.uploads.Keys == {2} && s.uploads[2].row == 0
    ensures Enabled(s, ConnClosed(2))
    ensures var t := Next(env, s, ConnClosed(2), {});
            !StillDone(t, 0) && t.session == s.session
  {
    ReachableInv(env, s);
    assert !Settled(s.files[1]);
    ClosingLoses(env, s, 2, {});
  }

  /** A finished row that is lost: from an empty folder, two connections send the same one of two files
      of a session, the first to its end; the second goes away, and the row is failed, inside the
      session. */
  lemma DoneIsLost(env: Env, address: Text, directory: Text, one: Descriptor, other: Descriptor) returns (s: Service)
    requires one.id != [] && other.id != one.id && one.size == other.size == 0 && one.sha256 == other.sha256 == []
    requires env.accepts([], [])
    ensures Reachable(env, s) && s.session != 0 && StillDone(s, 0) && Enabled(s, ConnClosed(2))
    ensures var t := Next(env, s, ConnClosed(2), {});
            !StillDone(t, 0) && t.session == s.session
  {
    var start := StartWaits(env, address, directory, [one, other]);
    s := Twice(env, start, address, one.id);
    SecondLost(env, s);
  }

  /** A session that lingers: the part file of its only file cannot be opened, and nothing ends it but
      its idle timer or somebody who stops it. */
  lemma SessionLingers(env: Env, address: Text, directory: Text, one: Descriptor) returns (s: Service)
    requires one.id != [] && one.size == 0 && one.sha256 == []
    ensures Reachable(env, s) && Lingers(s) && s.idleTimer && s.uploads == map[]
  {
    var start := StartWaits(env, address, directory, [one]);
    var a := Comes(env, start, address, one.id, 1);
    Admitted(env, a, address, one.id, 1);
    ReachableInv(env, a);
    var e := UploadHeaders(1, Head(one.id), false);
    HeadFailureLingers(env, a, 1, Head(one.id), false, {});
    ReachNext(env, a, e, {});
    s := Next(env, a, e, {});
    FailedHead(a, one.id);
  }

  lemma FailedHead(s: Service, id: Text)
    requires 1 in s.conns && Admission(s, 1, Head(id)) == 0
    ensures UploadHead(s, 1, Head(id), false, {}).uploads == s.uploads
  {
    HeadIsTake(s, 1, Head(id), false, {});
  }

  // --- a request that is let go without a word -----------------------------------------------------

  lemma PrepareParks(s: Service, p: Prepare)
    requires 0 in s.conns && Verdict(s, p) == 0 && !p.quickSave && !s.conns[0].answered && s.conns[0].open
    ensures var t := PrepareUpload(s, 0, p, {});
            t.pending == Bytes.Some(0) && t.session == 0 && t.conns.Keys == s.conns.Keys && !t.conns[0].answered && t.conns[0].open
  {
  }

  lemma TakenBackUnanswered(s: Service, address: Text)
    requires s.pending == Bytes.Some(0) && s.session == 0 && s.conns.Keys == {0, 1} && !s.conns[0].answered && s.conns[0].open
    requires s.conns[1] == Fresh(address)
    ensures var t := PeerCancel(s, 1, 0, {});
            t.pending.None? && 0 in t.conns && !t.conns[0].answered && t.conns[0].open
  {
  }

  /** A parked request that is never answered: somebody, from any address, asks for it to be cancelled,
      and its connection is left open without an answer. */
  lemma ParkedIsDropped(env: Env, address: Text, other: Text, one: Descriptor) returns (s: Service)
    ensures Reachable(env, s) && s.pending.None? && s.session == 0 && 0 in s.conns && s.conns[0].open && !s.conns[0].answered
    ensures s.conns[0].complete
  {
    ReachFirst(env);
    ReachNext(env, INITIAL, Connected(0, address), {});
    var a := Next(env, INITIAL, Connected(0, address), {});
    var p := Prepare(true, true, true, true, [one], true, false, false, Bytes.None);
    PrepareParks(a, p);
    ReachNext(env, a, PrepareRequest(0, p), {});
    var b := Next(env, a, PrepareRequest(0, p), {});
    s := Cancelled(env, b, other);
  }

  lemma Cancelled(env: Env, b: Service, other: Text) returns (s: Service)
    requires Reachable(env, b) && b.pending == Bytes.Some(0) && b.session == 0 && b.conns.Keys == {0}
    requires !b.conns[0].answered && b.conns[0].open && b.conns[0].complete
    ensures Reachable(env, s) && s.pending.None? && s.session == 0 && 0 in s.conns && s.conns[0].open && !s.conns[0].answered
    ensures s.conns[0].complete
  {
    ReachNext(env, b, Connected(1, other), {});
    var c := Next(env, b, Connected(1, other), {});
    TakenBackUnanswered(c, other);
    ReachNext(env, c, CancelRequest(1, 0), {});
    s := Next(env, c, CancelRequest(1, 0), {});
    ReachableInv(env, s);
  }
}
