/** The transfer model as the object the services share: fields updated in place, and the loops that
    count rows. */
module TransferModel {
  import opened Transfers

  class TransferModel {
    var files: seq<FileEntry>
    var state: State
    var totalBytes: nat
    var transferredBytes: int
    var dirtyFirst: int
    var dirtyLast: int
    var flushArmed: bool

    /** The rows as the page shows them, and those it has not been told about. */
    ghost var view: seq<Row>
    ghost var touched: set<int>

    ghost function Snapshot(): Model
      reads this
    {
      Model(files, state, totalBytes, transferredBytes, dirtyFirst, dirtyLast, flushArmed)
    }

    ghost function World(): Shown
      reads this
    {
      Shown(Snapshot(), view, touched)
    }

    /** The totals and the view are in order. Every method below takes one step of Show, so ShowKeeps
        says that this stays so. */
    ghost predicate Valid()
      reads this
    {
      Consistent(World())
    }

    ghost predicate Sized()
      reads this
    {
      |view| == |files|
    }

    constructor ()
      ensures Valid() && files == [] && state == Idle && Drift(Snapshot()) == 0
    {
      files, state, totalBytes, transferredBytes := [], Idle, 0, 0;
      dirtyFirst, dirtyLast, flushArmed := -1, -1, false;
      view, touched := [], {};
    }

    method Touch(row: int)
      modifies this`dirtyFirst, this`dirtyLast, this`flushArmed
      ensures Snapshot() == Transfers.Touch(old(Snapshot()), row)
    {
      if dirtyFirst < 0 || row < dirtyFirst {
        dirtyFirst := row;
      }
      if row > dirtyLast {
        dirtyLast := row;
      }
      if !flushArmed {
        flushArmed := true;
      }
    }

    method Flush()
      requires Sized()
      modifies this`dirtyFirst, this`dirtyLast, this`view, this`touched
      ensures Snapshot() == Transfers.Flush(old(Snapshot()))
      ensures view == Copied(old(view), old(Snapshot())) && touched == {}
    {
      view := Copied(view, Snapshot());
      touched := {};
      if dirtyFirst >= 0 {
        dirtyFirst := -1;
        dirtyLast := -1;
      }
    }

    /** The timer fires once and is then no longer running. */
    method OnFlushTimer()
      requires Sized()
      modifies this
      ensures Sized() && World() == Show(old(World()), FlushTimer)
    {
      if !flushArmed {
        return;
      }
      flushArmed := false;
      assert Copied(view, Snapshot()) == Copied(old(view), old(Snapshot()));
      Flush();
    }

    method RecomputeTotals()
      modifies this`totalBytes
      ensures totalBytes == TotalSize(files)
    {
      totalBytes := 0;
      for i := 0 to |files|
        invariant totalBytes == TotalSize(files[..i])
      {
        assert files[..i + 1][..i] == files[..i];
        totalBytes := totalBytes + files[i].size;
      }
      assert files[..|files|] == files;
    }

    method Begin(entries: seq<FileEntry>)
      requires Sized()
      modifies this
      ensures Sized() && World() == Show(old(World()), Op.Begin(entries))
    {
      files := entries;
      transferredBytes := 0;
      dirtyFirst, dirtyLast := -1, -1;
      RecomputeTotals();
      view, touched := Rows(files), {};
    }

    method SetState(next: State, sameError: bool)
      requires Sized()
      modifies this
      ensures Sized() && World() == Show(old(World()), Op.SetState(next, sameError))
    {
      if state == next && sameError {
        return;
      }
      state := next;
      if !next.Active? {
        flushArmed := false;
        assert Copied(view, Snapshot()) == Copied(old(view), old(Snapshot()));
        Flush();
      }
    }

    method SetFileToken(row: int, token: Token)
      requires Sized()
      modifies this
      ensures Sized() && World() == Show(old(World()), Op.SetFileToken(row, token))
    {
      if row < 0 || row >= |files| {
        return;
      }
      files := files[row := files[row].(token := token)];
    }

    method SetFileLocalPath(row: int, path: Text)
      requires Sized()
      modifies this
      ensures Sized() && World() == Show(old(World()), Op.SetFileLocalPath(row, path))
    {
      if row < 0 || row >= |files| {
        return;
      }
      files := files[row := files[row].(localPath := path)];
      Touch(row);
      touched := touched + {row};
    }

    method SetFileStatus(row: int, status: FileStatus)
      requires Sized()
      modifies this
      ensures Sized() && World() == Show(old(World()), Op.SetFileStatus(row, status))
    {
      if row < 0 || row >= |files| {
        return;
      }
      var file := files[row].(status := status);
      if status.FileDone? && file.transferred != file.size {
        transferredBytes := transferredBytes + file.size - file.transferred;
        file := file.(transferred := file.size);
      }
      files := files[row := file];
      Touch(row);
      assert Snapshot() == Unflushed(old(Snapshot()), Op.SetFileStatus(row, status));
      flushArmed := false;
      assert Copied(view, Snapshot()) == Copied(old(view), Unflushed(old(Snapshot()), Op.SetFileStatus(row, status)));
      Flush();
    }

    method SetFileTransferred(row: int, count: int)
      requires Sized()
      modifies this
      ensures Sized() && World() == Show(old(World()), Op.SetFileTransferred(row, count))
    {
      if row < 0 || row >= |files| {
        return;
      }
      var bytes := count;
      if bytes < 0 {
        bytes := 0;
      }
      if bytes > files[row].size && files[row].size > 0 {
        bytes := files[row].size;
      }
      if bytes == files[row].transferred {
        return;
      }
      transferredBytes := transferredBytes + bytes - files[row].transferred;
      files := files[row := files[row].(transferred := bytes)];
      Touch(row);
      touched := touched + {row};
    }

    method CompletedCount() returns (count: nat)
      ensures count == Count(files, IsDone)
    {
      count := 0;
      for i := 0 to |files|
        invariant count == Count(files[..i], IsDone)
      {
        assert files[..i + 1][..i] == files[..i];
        if files[i].status.FileDone? {
          count := count + 1;
        }
      }
      assert files[..|files|] == files;
    }

    method FailedCount() returns (count: nat)
      ensures count == Count(files, IsFailed)
    {
      count := 0;
      for i := 0 to |files|
        invariant count == Count(files[..i], IsFailed)
      {
        assert files[..i + 1][..i] == files[..i];
        if files[i].status.FileFailed? || files[i].status.FileSkipped? {
          count := count + 1;
        }
      }
      assert files[..|files|] == files;
    }

    /** The end-of-session test of the services. */
    method IsOver() returns (over: bool)
      ensures over <==> AllSettled(files)
    {
      var done := CompletedCount();
      var failed := FailedCount();
      CountsSettle(files);
      over := done + failed >= |files|;
    }

    method IndexOfFile(id: Text) returns (row: int)
      ensures row == RowOfId(files, id)
    {
      for i := 0 to |files|
        invariant forall j :: 0 <= j < i ==> files[j].id != id
      {
        if files[i].id == id {
          RowOfIdFirst(files, id, i);
          return i;
        }
      }
      RowOfIdAbsent(files, id);
      return -1;
    }
  }
}
