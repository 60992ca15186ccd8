/** Whatever happens at the receiver, what the sender's connections brought stays where it is. */
module EndToEndRows {
  import opened Transfers
  import opened EndToEnd
  import S = Send
  import R = Receive
  import RI = ReceiveInvariant
  import RS = ReceiveSafety
  import RR = ReceiveRows
  import RD = ReceiveDisk
  import Naming
  import Bytes

  // --- rows by id ------------------------------------------------------------------------

  lemma {:induction false} RowOfIdSame(a: seq<FileEntry>, b: seq<FileEntry>, id: Text)
    requires |a| == |b| && forall i :: 0 <= i < |a| ==> a[i].id == b[i].id
    ensures RowOfId(a, id) == RowOfId(b, id)
  {
    if a != [] {
      assert a[0].id == b[0].id;
      RowOfIdSame(a[1..], b[1..], id);
    }
  }

  /** One file under one session is one connection. */
  lemma SameParcel(w: World, c: ConnId, d: ConnId)
    requires WireOk(w) && MailApart(w) && Carries(w, c) && Carries(w, d)
    requires Parcel(w, c).session == Parcel(w, d).session && Parcel(w, c).id == Parcel(w, d).id
    ensures c == d
  {
    assert w.wire[c] == w.wire[d];
  }

  /** Nobody is sending a file that is done. */
  lemma DoneNotBusy(g: Setting, w: World, j: nat)
    requires RowsOk(g, w) && WireOk(w) && MailApart(w)
    requires j < |w.receiver.files| && IsDone(w.receiver.files[j])
    ensures j !in R.RowsOf(w.receiver.uploads)
  {
    assert Vouched(w, j);
    var c :| c in w.kept && Carries(w, c) && Parcel(w, c).session == w.shown
             && RowOfId(w.receiver.files, Parcel(w, c).id) == j;
    forall d | d in w.receiver.uploads
      ensures w.receiver.uploads[d].row != j
    {
      assert Writing(g, w, d);
      if w.receiver.uploads[d].row == j { SameParcel(w, c, d); }
    }
  }

  // --- quiet events ------------------------------------------------------------------------

  /** Two worlds that differ at the receiver alone. */
  predicate SameMail(w: World, v: World) {
    v.mail == w.mail && v.wire == w.wire && v.shown == w.shown
  }

  lemma QuietIds(s: R.Service, t: R.Service, x: set<ConnId>, id: Text)
    requires RR.Quiet(s, t, x)
    ensures RowOfId(s.files, id) == RowOfId(t.files, id)
  {
    forall i: nat | i < |s.files|
      ensures s.files[i].id == t.files[i].id
    {
      assert RR.RowHeld(s, t, i);
    }
    RowOfIdSame(s.files, t.files, id);
  }

  lemma QuietCounts(g: Setting, w: World, v: World, x: set<ConnId>, c: ConnId)
    requires RowsOk(g, w) && WireOk(w) && MailApart(w) && SameMail(w, v) && v.kept == w.kept
    requires RR.Quiet(w.receiver, v.receiver, x)
    requires c in w.kept && Carries(w, c) && Counted(w, c)
    ensures Counted(v, c)
  {
    var j := RowOfId(w.receiver.files, Parcel(w, c).id);
    DoneNotBusy(g, w, j);
    QuietIds(w.receiver, v.receiver, x, Parcel(w, c).id);
    assert RR.RowHeld(w.receiver, v.receiver, j);
  }

  lemma QuietWrites(g: Setting, w: World, v: World, x: set<ConnId>, c: ConnId)
    requires SameMail(w, v) && RR.Quiet(w.receiver, v.receiver, x)
    requires c in v.receiver.uploads && (c in w.receiver.uploads ==> Writing(g, w, c))
    ensures Writing(g, v, c)
  {
    assert RR.UploadHeld(w.receiver, v.receiver, c);
    QuietIds(w.receiver, v.receiver, x, Parcel(w, c).id);
  }

  lemma QuietVouches(w: World, v: World, x: set<ConnId>, j: nat)
    requires SameMail(w, v) && v.kept == w.kept && RR.Quiet(w.receiver, v.receiver, x) && Vouched(w, j)
    ensures Vouched(v, j)
  {
    var c :| c in w.kept && Carries(w, c) && Parcel(w, c).session == w.shown
             && RowOfId(w.receiver.files, Parcel(w, c).id) == j;
    QuietIds(w.receiver, v.receiver, x, Parcel(w, c).id);
    assert Carries(v, c) && Parcel(v, c) == Parcel(w, c);
  }

  lemma RowsQuiet(g: Setting, w: World, v: World, x: set<ConnId>)
    requires RowsOk(g, w) && WireOk(w) && MailApart(w) && SameMail(w, v) && v.kept == w.kept
    requires RR.Quiet(w.receiver, v.receiver, x)
    ensures RowsOk(g, v)
  {
    forall c | c in v.receiver.uploads
      ensures Writing(g, v, c)
    {
      assert RR.UploadHeld(w.receiver, v.receiver, c);
      QuietWrites(g, w, v, x, c);
    }
    forall j: nat | j < |v.receiver.files| && IsDone(v.receiver.files[j])
      ensures Vouched(v, j)
    {
      assert RR.RowHeld(w.receiver, v.receiver, j);
      QuietVouches(w, v, x, j);
    }
    forall c | c in v.kept && Carries(v, c) && Parcel(v, c).session == v.shown
      ensures Counted(v, c)
    {
      assert Carries(w, c) && Counted(w, c);
      QuietCounts(g, w, v, x, c);
    }
  }

  // --- an upload begins ------------------------------------------------------------------------

  lemma WithStatusIds(files: seq<FileEntry>, row: int, status: FileStatus, id: Text)
    ensures RowOfId(WithStatus(files, row, status), id) == RowOfId(files, id)
  {
    RowOfIdSame(WithStatus(files, row, status), files, id);
  }

  lemma RowsOpened(g: Setting, w: World, v: World, c: ConnId, row: nat, final: Text)
    requires RowsOk(g, w) && WireOk(w) && MailApart(w) && SameMail(w, v) && v.kept == w.kept
    requires c in w.receiver.conns && c !in w.receiver.uploads && row < |w.receiver.files| && !IsDone(w.receiver.files[row])
    requires Carries(w, c) && Parcel(w, c).session == w.shown && RowOfId(w.receiver.files, Parcel(w, c).id) == row
    requires final + Naming.PART !in w.receiver.disk
    requires v.receiver == R.OpenUpload(w.receiver, c, row, final)
    ensures RowsOk(g, v)
  {
    forall d | d in v.receiver.uploads
      ensures Writing(g, v, d)
    {
      assert d != c ==> Writing(g, w, d);
      WithStatusIds(w.receiver.files, row, FileTransferring, Parcel(w, d).id);
    }
    RowsAfterStatus(w, v, row, FileTransferring);
  }

  /** A row that was not done gets a status that is not done: the finished ones are as they were. */
  lemma RowsAfterStatus(w: World, v: World, row: nat, status: FileStatus)
    requires SameMail(w, v) && v.kept == w.kept && !status.FileDone?
    requires row < |w.receiver.files| && !IsDone(w.receiver.files[row])
    requires v.receiver.files == WithStatus(w.receiver.files, row, status)
    requires forall j: nat :: j < |w.receiver.files| && IsDone(w.receiver.files[j]) ==> Vouched(w, j)
    requires forall c :: c in w.kept && Carries(w, c) && Parcel(w, c).session == w.shown ==> Counted(w, c)
    ensures forall j: nat :: j < |v.receiver.files| && IsDone(v.receiver.files[j]) ==> Vouched(v, j)
    ensures forall c :: c in v.kept && Carries(v, c) && Parcel(v, c).session == v.shown ==> Counted(v, c)
  {
    forall j: nat | j < |v.receiver.files| && IsDone(v.receiver.files[j])
      ensures Vouched(v, j)
    {
      assert Vouched(w, j);
      var c :| c in w.kept && Carries(w, c) && Parcel(w, c).session == w.shown
               && RowOfId(w.receiver.files, Parcel(w, c).id) == j;
      WithStatusIds(w.receiver.files, row, status, Parcel(w, c).id);
      assert Carries(v, c) && Parcel(v, c) == Parcel(w, c);
    }
    forall c | c in v.kept && Carries(v, c) && Parcel(v, c).session == v.shown
      ensures Counted(v, c)
    {
      assert Carries(w, c) && Counted(w, c);
      WithStatusIds(w.receiver.files, row, status, Parcel(w, c).id);
    }
  }

  // --- bytes arrive --------------------------------------------------------------------------

  lemma WrittenOn(g: Setting, w: World, v: World, c: ConnId, data: seq<Byte>, d: ConnId)
    requires SameMail(w, v) && c in w.receiver.uploads && d in w.receiver.uploads && Writing(g, w, c) && Writing(g, w, d)
    requires RI.PartsApart(w.receiver.uploads)
    requires c in w.receiver.conns && w.receiver.conns[c].sink.Some?
    requires w.receiver.conns[c].sink.value.part == w.receiver.uploads[c].part
    requires var from := |w.receiver.disk[w.receiver.uploads[c].part]|;
             from + |data| <= |Body(g, w, c)| && data == Body(g, w, c)[from..from + |data|]
    requires v.receiver == R.Written(w.receiver, c, data)
    ensures d in v.receiver.uploads && Writing(g, v, d)
  {
    if d == c {
      var was := w.receiver.disk[w.receiver.uploads[c].part];
      assert Body(g, w, c)[..|was| + |data|] == was + data;
    }
  }

  lemma RowsWritten(g: Setting, w: World, v: World, c: ConnId, data: seq<Byte>)
    requires RowsOk(g, w) && SameMail(w, v) && v.kept == w.kept
    requires c in w.receiver.uploads && Writing(g, w, c) && RI.PartsApart(w.receiver.uploads)
    requires c in w.receiver.conns && w.receiver.conns[c].sink.Some?
    requires w.receiver.conns[c].sink.value.part == w.receiver.uploads[c].part
    requires var from := |w.receiver.disk[w.receiver.uploads[c].part]|;
             from + |data| <= |Body(g, w, c)| && data == Body(g, w, c)[from..from + |data|]
    requires v.receiver == R.Written(w.receiver, c, data)
    ensures RowsOk(g, v)
  {
    forall d | d in v.receiver.uploads
      ensures Writing(g, v, d)
    {
      assert Writing(g, w, d);
      WrittenOn(g, w, v, c, data, d);
    }
    forall j: nat | j < |v.receiver.files| && IsDone(v.receiver.files[j])
      ensures Vouched(v, j)
    {
      assert Vouched(w, j);
      var d :| d in w.kept && Carries(w, d) && Parcel(w, d).session == w.shown
               && RowOfId(w.receiver.files, Parcel(w, d).id) == j;
      assert Carries(v, d) && Parcel(v, d) == Parcel(w, d);
    }
    forall d | d in v.kept && Carries(v, d) && Parcel(v, d).session == v.shown
      ensures Counted(v, d)
    {
      assert Carries(w, d) && Counted(w, d);
    }
  }

  // --- a body is kept ----------------------------------------------------------------------------

  lemma LocalPathIds(files: seq<FileEntry>, row: nat, path: Text, id: Text)
    requires row < |files|
    ensures RowOfId(WithStatus(WithLocalPath(files, row, path), row, FileDone), id) == RowOfId(files, id)
  {
    RowOfIdSame(WithStatus(WithLocalPath(files, row, path), row, FileDone), files, id);
  }

  lemma SettledElsewhere(g: Setting, w: World, v: World, c: ConnId, d: ConnId, renames: bool)
    requires SameMail(w, v) && c in w.receiver.uploads && d in w.receiver.uploads && d != c && Writing(g, w, d)
    requires w.receiver.uploads[c].row < |w.receiver.files|
    requires w.receiver.uploads[c].part in w.receiver.disk
    requires w.receiver.uploads[d].part != w.receiver.uploads[c].part
    requires v.receiver.disk == R.Settle(w.receiver, w.receiver.uploads[c], renames).disk
    requires v.receiver.files == R.Settle(w.receiver, w.receiver.uploads[c], renames).files
    requires v.receiver.uploads == w.receiver.uploads - {c}
    ensures Writing(g, v, d)
  {
    LocalPathIds(w.receiver.files, w.receiver.uploads[c].row, R.KeptPath(w.receiver, w.receiver.uploads[c], renames), Parcel(w, d).id);
  }

  lemma RowsSettled(g: Setting, w: World, v: World, c: ConnId, renames: bool)
    requires RowsOk(g, w) && WireOk(w) && MailApart(w) && SameMail(w, v)
    requires c in w.receiver.uploads && Writing(g, w, c) && RI.PartsApart(w.receiver.uploads)
    requires w.receiver.uploads[c].row < |w.receiver.files|
    requires v.kept == w.kept[c := R.KeptPath(w.receiver, w.receiver.uploads[c], renames)]
    requires v.receiver.disk == R.Settle(w.receiver, w.receiver.uploads[c], renames).disk
    requires v.receiver.files == R.Settle(w.receiver, w.receiver.uploads[c], renames).files
    requires v.receiver.uploads == w.receiver.uploads - {c}
    ensures RowsOk(g, v)
  {
    var row, path := w.receiver.uploads[c].row, v.kept[c];
    forall d | d in v.receiver.uploads
      ensures Writing(g, v, d)
    {
      assert Writing(g, w, d);
      SettledElsewhere(g, w, v, c, d, renames);
    }
    forall j: nat | j < |v.receiver.files| && IsDone(v.receiver.files[j])
      ensures Vouched(v, j)
    {
      SettledVouches(g, w, v, c, row, path, j);
    }
    forall d | d in v.kept && Carries(v, d) && Parcel(v, d).session == v.shown
      ensures Counted(v, d)
    {
      SettledCounts(g, w, v, c, row, path, d);
    }
  }

  lemma SettledVouches(g: Setting, w: World, v: World, c: ConnId, row: nat, path: Text, j: nat)
    requires RowsOk(g, w) && SameMail(w, v) && v.kept == w.kept[c := path]
    requires c in w.receiver.uploads && Writing(g, w, c) && row == w.receiver.uploads[c].row < |w.receiver.files|
    requires v.receiver.files == WithStatus(WithLocalPath(w.receiver.files, row, path), row, FileDone)
    requires j < |v.receiver.files| && IsDone(v.receiver.files[j])
    ensures Vouched(v, j)
  {
    var d := c;
    if j != row {
      assert Vouched(w, j);
      d :| d in w.kept && Carries(w, d) && Parcel(w, d).session == w.shown
           && RowOfId(w.receiver.files, Parcel(w, d).id) == j;
    }
    LocalPathIds(w.receiver.files, row, path, Parcel(w, d).id);
    assert d in v.kept && Carries(v, d) && Parcel(v, d) == Parcel(w, d);
  }

  lemma SettledCounts(g: Setting, w: World, v: World, c: ConnId, row: nat, path: Text, d: ConnId)
    requires RowsOk(g, w) && WireOk(w) && MailApart(w) && SameMail(w, v) && v.kept == w.kept[c := path]
    requires c in w.receiver.uploads && Writing(g, w, c) && row == w.receiver.uploads[c].row < |w.receiver.files|
    requires v.receiver.files == WithStatus(WithLocalPath(w.receiver.files, row, path), row, FileDone)
    requires d in v.kept && Carries(v, d) && Parcel(v, d).session == v.shown
    ensures Counted(v, d)
  {
    LocalPathIds(w.receiver.files, row, path, Parcel(w, d).id);
    if d != c {
      assert Carries(w, d) && Counted(w, d);
      DoneNotBusy(g, w, RowOfId(w.receiver.files, Parcel(w, d).id));
      assert row in R.RowsOf(w.receiver.uploads);
    }
  }
}
