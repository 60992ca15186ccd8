/** Exactly when a finished row can be lost again. */
module ReceiveStable {
  import opened Transfers
  import opened Receive
  import opened ReceiveInvariant
  import opened ReceiveSafety
  import opened ReceiveRows
  import RF = ReceiveFrame
  import Bytes
  import Naming

  predicate StillDone(t: Service, row: nat) {
    row < |t.files| && IsDone(t.files[row])
  }

  /** The row is as it was, and nobody is sending its file again. */
  ghost predicate Kept(s: Service, t: Service, row: nat) {
    row < |s.files| == |t.files| && t.files[row] == s.files[row] && row !in RowsOf(t.uploads)
  }

  // --- nobody sends it again: it stays ------------------------------------------------------------

  lemma QuietKeepsRow(s: Service, t: Service, x: set<ConnId>, row: nat)
    requires Quiet(s, t, x) && row < |s.files| && IsDone(s.files[row]) && row !in RowsOf(s.uploads)
    ensures Kept(s, t, row)
  {
    assert RowHeld(s, t, row);
  }

  lemma KeptTwice(s: Service, t: Service, u: Service, x: set<ConnId>, row: nat)
    requires Kept(s, t, row) && IsDone(s.files[row]) && Quiet(t, u, x)
    ensures Kept(s, u, row)
  {
    QuietKeepsRow(t, u, x, row);
  }

  lemma OpenKeepsRow(s: Service, c: ConnId, other: nat, final: Text, row: nat)
    requires c in s.conns && other < |s.files| && row < |s.files| && other != row && row !in RowsOf(s.uploads)
    ensures Kept(s, OpenUpload(HeadSeen(s, c), c, other, final), row)
  {
  }

  lemma OpenedThenKept(s: Service, c: ConnId, other: nat, final: Text, t: Service, row: nat)
    requires c in s.conns && other < |s.files| && row < |s.files| && IsDone(s.files[row]) && row !in RowsOf(s.uploads)
    requires !IsDone(s.files[other])
    requires Quiet(OpenUpload(HeadSeen(s, c), c, other, final), t, {})
    ensures Kept(s, t, row)
  {
    OpenKeepsRow(s, c, other, final, row);
    KeptTwice(s, OpenUpload(HeadSeen(s, c), c, other, final), t, {}, row);
  }

  lemma HeadKeepsRow(env: Env, s: Service, c: ConnId, r: UploadRequest, drops: set<ConnId>, row: nat)
    requires Inv(env, s) && Enabled(s, UploadHeaders(c, r, true)) && Opens(s, c, r)
    requires row < |s.files| && IsDone(s.files[row]) && row !in RowsOf(s.uploads)
    ensures Kept(s, UploadHead(s, c, r, true, drops), row)
  {
    var other, final := RF.HeadOpens(env, s, c, r, drops);
    OpenedThenKept(s, c, other, final, UploadHead(s, c, r, true, drops), row);
  }

  lemma WrittenRows(s: Service, c: ConnId, data: seq<Byte>)
    requires c in s.conns && s.conns[c].sink.Some?
    ensures RowsOf(Written(s, c, data).uploads) == RowsOf(s.uploads)
  {
    var t := Written(s, c, data);
    assert forall d :: d in s.uploads <==> d in t.uploads;
    assert forall d :: d in s.uploads ==> t.uploads[d].row == s.uploads[d].row;
  }

  lemma BlockKeepsRow(env: Env, s: Service, e: Event, drops: set<ConnId>, row: nat)
    requires UploadsOk(s) && Enabled(s, e) && e.Block? && Stirs(env, s, e)
    requires row < |s.files| && IsDone(s.files[row]) && row !in RowsOf(s.uploads)
    ensures Kept(s, Next(env, s, e, drops), row)
  {
    var t := Written(s, e.c, e.data[..e.taken]);
    WrittenRows(s, e.c, e.data[..e.taken]);
    BlockSplits(s, e.c, e.data, e.taken, drops, t);
    KeptTwice(s, t, Next(env, s, e, drops), {}, row);
  }

  lemma RowsMember(uploads: map<ConnId, Upload>, c: ConnId)
    requires c in uploads
    ensures uploads[c].row in RowsOf(uploads)
  {
  }

  lemma SettleKeepsRow(s: Service, c: ConnId, conn: Conn, renames: bool, row: nat)
    requires c in s.conns && c in s.uploads && s.uploads[c].part in s.disk
    requires row < |s.files| && row !in RowsOf(s.uploads)
    ensures Kept(s, Settle(s.(conns := s.conns[c := conn], uploads := s.uploads - {c}), s.uploads[c], renames), row)
  {
    RowsMember(s.uploads, c);
    assert RowsOf(s.uploads - {c}) <= RowsOf(s.uploads);
  }

  lemma EndKeepsRow(env: Env, s: Service, e: Event, drops: set<ConnId>, row: nat)
    requires Enabled(s, e) && e.BodyEnd? && Stirs(env, s, e)
    requires row < |s.files| && IsDone(s.files[row]) && row !in RowsOf(s.uploads)
    ensures Kept(s, Next(env, s, e, drops), row)
  {
    var conn := s.conns[e.c].(complete := true);
    var v := Settle(s.(conns := s.conns[e.c := conn], uploads := s.uploads - {e.c}), s.uploads[e.c], e.renames);
    EndSplits(env, s, e, drops, v);
    SettleKeepsRow(s, e.c, conn, e.renames, row);
    KeptTwice(s, v, Next(env, s, e, drops), {e.c}, row);
  }

  /** As long as the rows are not replaced, a finished row that nobody is sending again stays as it is,
      and nobody begins to. */
  lemma NextKeepsRow(env: Env, s: Service, e: Event, drops: set<ConnId>, row: nat)
    requires Inv(env, s) && Enabled(s, e) && !RF.Replaces(s, e)
    requires row < |s.files| && IsDone(s.files[row]) && row !in RowsOf(s.uploads)
    ensures Kept(s, Next(env, s, e, drops), row)
  {
    if !Stirs(env, s, e) {
      NextQuiet(env, s, e, drops);
      QuietKeepsRow(s, Next(env, s, e, drops), Winners(s, e), row);
    } else {
      match e
      case UploadHeaders(c, r, _) => HeadKeepsRow(env, s, c, r, drops, row);
      case Block(_, _, _) => BlockKeepsRow(env, s, e, drops, row);
      case BodyEnd(_, _) => EndKeepsRow(env, s, e, drops, row);
      case _ =>
    }
  }

  // --- somebody does: it may be lost ---------------------------------------------------------------

  lemma ClosedDrops(env: Env, s: Service, c: ConnId, drops: set<ConnId>, gone: Service)
    requires c in s.conns && s.conns[c].open && c in s.uploads && s.pending.None?
    requires gone == s.(conns := s.conns[c := s.conns[c].(open := false, answered := true)])
    ensures Enabled(s, ConnClosed(c)) && Next(env, s, ConnClosed(c), drops) == FinishIfSettled(DropUpload(gone, c), drops)
  {
  }

  lemma DropLoses(s: Service, c: ConnId, drops: set<ConnId>, t: Service)
    requires c in s.uploads && s.uploads[c].row < |s.files| && t == FinishIfSettled(DropUpload(s, c), drops)
    ensures !StillDone(t, s.uploads[c].row)
  {
  }

  lemma DropGoesOn(s: Service, c: ConnId, drops: set<ConnId>, i: nat)
    requires c in s.uploads && i < |s.files| && i != s.uploads[c].row && !Settled(s.files[i])
    ensures FinishIfSettled(DropUpload(s, c), drops) == DropUpload(s, c)
  {
    assert DropUpload(s, c).files[i] == s.files[i];
  }

  /** The socket of the second upload going away is enough, and the session goes on if anything else
      is left to do in it. */
  lemma ClosingLoses(env: Env, s: Service, c: ConnId, drops: set<ConnId>)
    requires Inv(env, s) && c in s.uploads
    ensures Enabled(s, ConnClosed(c)) && !StillDone(Next(env, s, ConnClosed(c), drops), s.uploads[c].row)
    ensures (exists i: nat :: i < |s.files| && i != s.uploads[c].row && !Settled(s.files[i])) ==>
              Next(env, s, ConnClosed(c), drops).session == s.session != 0
  {
    assert UploadOk(s, c);
    var gone := s.(conns := s.conns[c := s.conns[c].(open := false, answered := true)]);
    ClosedDrops(env, s, c, drops, gone);
    DropLoses(gone, c, drops, Next(env, s, ConnClosed(c), drops));
    if i: nat :| i < |s.files| && i != s.uploads[c].row && !Settled(s.files[i]) {
      DropGoesOn(gone, c, drops, i);
    }
  }

  // --- exactly -------------------------------------------------------------------------------------

  ghost predicate NothingLoses(env: Env, s: Service, row: nat) {
    forall e, drops {:trigger Next(env, s, e, drops)} :: Enabled(s, e) ==> StillDone(Next(env, s, e, drops), row)
  }

  /** In a session, a finished row is safe from whatever comes next exactly when no connection is in
      the middle of sending its file a second time. */
  lemma DoneStaysExactly(env: Env, s: Service, row: nat)
    requires Inv(env, s) && s.session != 0 && row < |s.files| && IsDone(s.files[row])
    ensures NothingLoses(env, s, row) <==> row !in RowsOf(s.uploads)
  {
    if row !in RowsOf(s.uploads) {
      forall e, drops | Enabled(s, e)
        ensures StillDone(Next(env, s, e, drops), row)
      {
        NextKeepsRow(env, s, e, drops, row);
      }
    } else {
      FinishKeepsDone(s, Stopped, {}, row);
      assert Enabled(s, StopListening);
      assert !StillDone(Next(env, s, StopListening, {}), row);
    }
  }

  /** No event of the run replaces the rows. */
  ghost predicate SameRows(env: Env, s: Service, turns: seq<Turn>)
    decreases |turns|
  {
    turns == [] || ((Enabled(s, turns[0].0) ==> !RF.Replaces(s, turns[0].0)) && SameRows(env, Take(env, s, turns[0]), turns[1..]))
  }

  /** Once safe, it stays so for as long as its rows are shown, through the end of the session. */
  lemma {:induction false} DoneStays(env: Env, s: Service, turns: seq<Turn>, row: nat)
    requires Inv(env, s) && row < |s.files| && IsDone(s.files[row]) && row !in RowsOf(s.uploads) && SameRows(env, s, turns)
    ensures Kept(s, RunAll(env, s, turns), row)
    decreases |turns|
  {
    if turns != [] {
      if Enabled(s, turns[0].0) {
        NextKeeps(env, s, turns[0].0, turns[0].1);
        NextKeepsRow(env, s, turns[0].0, turns[0].1, row);
      }
      DoneStays(env, Take(env, s, turns[0]), turns[1..], row);
    }
  }
}
