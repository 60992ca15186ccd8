/** What one event of the sending side does to its rows and to the requests that are out. */
module SendSteps {
  import opened Transfers
  import opened Send
  import opened SendInvariant
  import Bytes

  /** The same file, and not newly done. */
  predicate Kin(a: FileEntry, b: FileEntry) {
    b.id == a.id && b.fileName == a.fileName && b.localPath == a.localPath && (IsDone(b) ==> IsDone(a))
  }

  /** The same files, and none newly done. */
  ghost predicate SameFiles(a: seq<FileEntry>, b: seq<FileEntry>) {
    && |a| == |b|
    && (forall i :: 0 <= i < |a| ==> Kin(a[i], b[i]))
  }

  /** At most one request goes out, under the next number. */
  ghost predicate FlightStep(s: Sender, t: Sender) {
    && s.issued <= t.issued <= s.issued + 1
    && (s.issued < t.issued ==> s.issued in t.flight)
    && (forall q :: q in t.flight ==>
          (q in s.flight && t.flight[q] == s.flight[q]) || (q == s.issued && s.issued < t.issued))
  }

  /** An upload goes out for a later row than the one before, or nothing does. */
  ghost predicate Started(s: Sender, t: Sender) {
    && SameFiles(s.files, t.files)
    && (t.session == s.session || t.session == 0)
    && s.currentRow <= t.currentRow && t.uploading == s.uploading && t.cancelled == s.cancelled
    && if t.issued == s.issued then t.flight == s.flight && !t.busy
       else
         && t.issued == s.issued + 1 && s.currentRow < t.currentRow < |t.files| && t.session == s.session
         && t.flight == s.flight[s.issued := UploadOf(t, t.currentRow)]
  }

  lemma StatusSame(files: seq<FileEntry>, row: int, status: FileStatus)
    requires !status.FileDone?
    ensures SameFiles(files, WithStatus(files, row, status))
  {
  }

  lemma SameTwice(a: seq<FileEntry>, b: seq<FileEntry>, c: seq<FileEntry>)
    requires SameFiles(a, b) && SameFiles(b, c)
    ensures SameFiles(a, c)
  {
  }

  /** A row was passed over first. */
  lemma StartedLater(s: Sender, t: Sender, u: Sender)
    requires SameFiles(s.files, t.files) && s.currentRow <= t.currentRow
    requires t == s.(currentRow := t.currentRow, files := t.files) && Started(t, u)
    ensures Started(s, u)
  {
    SameTwice(s.files, t.files, u.files);
  }

  lemma {:induction false} StartSteps(s: Sender, opens: set<nat>)
    requires !s.cancelled
    ensures Started(s, StartNextFile(s, opens))
    decreases |s.files| - s.currentRow
  {
    if s.currentRow + 1 <= |s.files| {
      var row := NextWaiting(s.files, s.currentRow + 1);
      StatusSame(s.files, row, FileFailed);
      StatusSame(s.files, row, FileTransferring);
      if row < |s.files| && row !in opens {
        var t := s.(currentRow := row, files := WithStatus(s.files, row, FileFailed));
        StartSteps(t, opens);
        StartedLater(s, t, StartNextFile(t, opens));
      }
    }
  }

  lemma EachSame(files: seq<FileEntry>, f: FileEntry -> FileEntry)
    requires forall e :: Kin(e, f(e))
    ensures SameFiles(files, Each(files, f))
  {
    forall i | 0 <= i < |files|
      ensures Each(files, f)[i] == f(files[i])
    {
    }
  }

  lemma FailSame(s: Sender)
    ensures SameFiles(s.files, Fail(s).files)
  {
    EachSame(s.files, SkipWaiting);
  }

  lemma CancelSame(s: Sender)
    ensures SameFiles(s.files, Cancel(s).files)
  {
    EachSame(s.files, SkipUnfinished);
  }

  lemma GrantSame(files: seq<FileEntry>, grant: Grant)
    ensures SameFiles(files, GrantAll(files, grant))
  {
    EachSame(files, f => Granted(f, grant));
  }
}
