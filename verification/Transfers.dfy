/** The rows of one transfer, and the model that carries their running totals. Transfers holds the
    values; TransferModel, below, is the object that updates them in place. */
module Transfers {
  /** One UTF-16 code unit; every name, path and identifier is a sequence of them. */
  type Unit = u: int | 0 <= u < 0x10000
  type Text = seq<Unit>

  datatype FileStatus = FileWaiting | FileTransferring | FileDone | FileFailed | FileSkipped

  datatype State = Idle | Pending | Requesting | Active | Finished | Failed | Cancelled

  /** The secret issued for one file; 0 stands for none. */
  type Token = nat

  datatype FileEntry = FileEntry(
    id: Text, fileName: Text, size: nat, sha256: Text,
    token: Token, localPath: Text, transferred: nat, status: FileStatus)

  // --- what the setters do to the rows ------------------------------------------------

  predicate InRange(files: seq<FileEntry>, row: int) {
    0 <= row < |files|
  }

  /** Becoming done brings a row up to its size, whatever was reported for it before. */
  function WithStatus(files: seq<FileEntry>, row: int, status: FileStatus): (r: seq<FileEntry>)
    ensures |r| == |files|
  {
    if !InRange(files, row) then files
    else
      var f := files[row];
      files[row := f.(status := status, transferred := if status.FileDone? then f.size else f.transferred)]
  }

  function Clamp(bytes: int, size: nat): (n: nat) {
    if bytes < 0 then 0 else if bytes > size > 0 then size else bytes
  }

  function WithTransferred(files: seq<FileEntry>, row: int, bytes: int): (r: seq<FileEntry>)
    ensures |r| == |files|
  {
    if !InRange(files, row) then files
    else files[row := files[row].(transferred := Clamp(bytes, files[row].size))]
  }

  function WithLocalPath(files: seq<FileEntry>, row: int, path: Text): (r: seq<FileEntry>)
    ensures |r| == |files|
  {
    if !InRange(files, row) then files else files[row := files[row].(localPath := path)]
  }

  function WithToken(files: seq<FileEntry>, row: int, token: Token): (r: seq<FileEntry>)
    ensures |r| == |files|
  {
    if !InRange(files, row) then files else files[row := files[row].(token := token)]
  }

  // --- figures ------------------------------------------------------------------------

  function Sum(files: seq<FileEntry>): nat {
    if files == [] then 0 else Sum(files[..|files| - 1]) + files[|files| - 1].transferred
  }

  function TotalSize(files: seq<FileEntry>): nat {
    if files == [] then 0 else TotalSize(files[..|files| - 1]) + files[|files| - 1].size
  }

  predicate IsDone(f: FileEntry) {
    f.status.FileDone?
  }

  predicate IsFailed(f: FileEntry) {
    f.status.FileFailed? || f.status.FileSkipped?
  }

  predicate Settled(f: FileEntry) {
    IsDone(f) || IsFailed(f)
  }

  predicate AllSettled(files: seq<FileEntry>) {
    forall i :: 0 <= i < |files| ==> Settled(files[i])
  }

  function Count(files: seq<FileEntry>, p: FileEntry -> bool): (n: nat)
    ensures n <= |files|
  {
    if files == [] then 0
    else Count(files[..|files| - 1], p) + if p(files[|files| - 1]) then 1 else 0
  }

  /** Comparing the two counts with the number of rows is asking whether every row is settled. */
  lemma {:induction false} CountsSettle(files: seq<FileEntry>)
    ensures Count(files, IsDone) + Count(files, IsFailed) <= |files|
    ensures Count(files, IsDone) + Count(files, IsFailed) >= |files| <==> AllSettled(files)
  {
    if files != [] {
      var rest := files[..|files| - 1];
      CountsSettle(rest);
      assert AllSettled(files) <==> AllSettled(rest) && Settled(files[|files| - 1]);
    }
  }

  /** No failure is counted exactly when no row failed or was skipped. */
  lemma {:induction false} CountZero(files: seq<FileEntry>, p: FileEntry -> bool)
    ensures Count(files, p) == 0 <==> forall i :: 0 <= i < |files| ==> !p(files[i])
  {
    if files != [] {
      CountZero(files[..|files| - 1], p);
    }
  }

  /** Replacing one row moves the total by the difference of the two counts. */
  lemma {:induction false} SumUpdate(files: seq<FileEntry>, row: nat, f: FileEntry)
    requires row < |files|
    ensures Sum(files[row := f]) == Sum(files) - files[row].transferred + f.transferred
  {
    var n := |files| - 1;
    var changed := files[row := f];
    if row == n {
      assert changed[..n] == files[..n];
    } else {
      assert changed[..n] == files[..n][row := f];
      SumUpdate(files[..n], row, f);
    }
  }

  /** The first row with an id, -1 when no row has it. */
  function RowOfId(files: seq<FileEntry>, id: Text): (row: int)
    ensures -1 <= row < |files|
    ensures row >= 0 ==> files[row].id == id
  {
    if files == [] then -1
    else if files[0].id == id then 0
    else
      var rest := RowOfId(files[1..], id);
      if rest < 0 then -1 else rest + 1
  }

  lemma {:induction false} RowOfIdFirst(files: seq<FileEntry>, id: Text, row: nat)
    requires row < |files| && files[row].id == id
    requires forall j :: 0 <= j < row ==> files[j].id != id
    ensures RowOfId(files, id) == row
    decreases |files|
  {
    if row > 0 {
      assert files[0].id != id;
      assert forall j :: 0 <= j < row - 1 ==> files[1..][j].id == files[j + 1].id;
      RowOfIdFirst(files[1..], id, row - 1);
    }
  }

  lemma {:induction false} RowOfIdAbsent(files: seq<FileEntry>, id: Text)
    requires forall j :: 0 <= j < |files| ==> files[j].id != id
    ensures RowOfId(files, id) == -1
    decreases |files|
  {
    if files != [] {
      assert files[0].id != id;
      assert forall j :: 0 <= j < |files| - 1 ==> files[1..][j].id == files[j + 1].id;
      RowOfIdAbsent(files[1..], id);
    }
  }

  // --- the model and the view it announces itself to -----------------------------------

  /** What a row shows; tokens are not part of it. */
  datatype Row = Row(id: Text, fileName: Text, size: nat, transferred: nat, status: FileStatus, localPath: Text)

  function RowOf(f: FileEntry): Row {
    Row(f.id, f.fileName, f.size, f.transferred, f.status, f.localPath)
  }

  /** The model's own fields. `first` and `last` bound the rows touched since the last flush, -1
      when there are none; `armed` says that the timer of the next flush is running. */
  datatype Model = Model(
    files: seq<FileEntry>, state: State, totalBytes: nat, transferredBytes: int, first: int, last: int, armed: bool)

  datatype Op =
    | Begin(files: seq<FileEntry>)
    | SetState(state: State, sameError: bool)
    | SetFileToken(row: int, token: Token)
    | SetFileLocalPath(row: int, path: Text)
    | SetFileStatus(row: int, status: FileStatus)
    | SetFileTransferred(row: int, bytes: int)
    | FlushTimer

  function Touch(m: Model, row: int): Model {
    m.(first := if m.first < 0 || row < m.first then row else m.first,
       last := if row > m.last then row else m.last,
       armed := true)
  }

  function Flush(m: Model): Model {
    if m.first >= 0 then m.(first := -1, last := -1) else m
  }

  function Apply(m: Model, op: Op): Model {
    match op
    case Begin(files) => Model(files, m.state, TotalSize(files), 0, -1, -1, m.armed)
    case SetState(state, sameError) =>
      if m.state == state && sameError then m
      else if state.Active? then m.(state := state)
      else Flush(m.(state := state, armed := false))
    case SetFileToken(row, token) => m.(files := WithToken(m.files, row, token))
    case SetFileLocalPath(row, path) =>
      if !InRange(m.files, row) then m else Touch(m.(files := WithLocalPath(m.files, row, path)), row)
    case SetFileStatus(row, status) =>
      if !InRange(m.files, row) then m
      else
        var f := m.files[row];
        var gained := if status.FileDone? then f.size - f.transferred else 0;
        Flush(Touch(m.(files := WithStatus(m.files, row, status), transferredBytes := m.transferredBytes + gained), row).(armed := false))
    case SetFileTransferred(row, bytes) =>
      if !InRange(m.files, row) || Clamp(bytes, m.files[row].size) == m.files[row].transferred then m
      else
        var moved := Clamp(bytes, m.files[row].size) - m.files[row].transferred;
        Touch(m.(files := WithTransferred(m.files, row, bytes), transferredBytes := m.transferredBytes + moved), row)
    case FlushTimer => if m.armed then Flush(m.(armed := false)) else m
  }

  /** The rows that change without the view being told at once. */
  function Touches(m: Model, op: Op): set<int> {
    match op
    case SetFileLocalPath(row, _) => if InRange(m.files, row) then {row} else {}
    case SetFileStatus(row, _) => if InRange(m.files, row) then {row} else {}
    case SetFileTransferred(row, bytes) =>
      if InRange(m.files, row) && Clamp(bytes, m.files[row].size) != m.files[row].transferred then {row} else {}
    case _ => {}
  }

  predicate Announces(m: Model, op: Op) {
    match op
    case SetState(state, sameError) => !(m.state == state && sameError) && !state.Active?
    case SetFileStatus(row, _) => InRange(m.files, row)
    case FlushTimer => m.armed
    case _ => false
  }

  /** The model with a view that copies a row only when a signal tells it to: everything on a
      reset, the announced span on a flush. `touched` is what has changed since. */
  datatype Shown = Shown(model: Model, view: seq<Row>, touched: set<int>)

  /** The span dataChanged names when `m` is flushed. */
  predicate InSpan(m: Model, row: int) {
    m.first >= 0 && m.first <= row <= m.last
  }

  function Copied(view: seq<Row>, m: Model): (r: seq<Row>)
    requires |view| == |m.files|
    ensures |r| == |view|
  {
    seq(|view|, i requires 0 <= i < |view| => if InSpan(m, i) then RowOf(m.files[i]) else view[i])
  }

  /** The model just before it announces what it has touched. */
  function Unflushed(m: Model, op: Op): Model {
    match op
    case SetFileStatus(row, _) => Touch(m.(files := Apply(m, op).files, transferredBytes := Apply(m, op).transferredBytes), row)
    case _ => m
  }

  function Show(w: Shown, op: Op): Shown
    requires |w.view| == |w.model.files|
  {
    var m := Apply(w.model, op);
    if op.Begin? then Shown(m, Rows(op.files), {})
    else if Announces(w.model, op) then
      assert |Unflushed(w.model, op).files| == |w.model.files|;
      Shown(m, Copied(w.view, Unflushed(w.model, op)), {})
    else Shown(m, w.view, w.touched + Touches(w.model, op))
  }

  function Rows(files: seq<FileEntry>): (r: seq<Row>) {
    seq(|files|, i requires 0 <= i < |files| => RowOf(files[i]))
  }

  /** The span is exactly the smallest one around the touched rows. */
  ghost predicate Spans(m: Model, touched: set<int>) {
    && (touched == {} ==> m.first == -1 && m.last == -1)
    && (touched != {} ==> m.first in touched && m.last in touched)
    && (forall row :: row in touched ==> 0 <= m.first <= row <= m.last < |m.files|)
  }

  /** A row that was not touched since the last announcement is shown as it is. */
  ghost predicate Current(w: Shown) {
    && |w.view| == |w.model.files|
    && (forall i :: 0 <= i < |w.view| && i !in w.touched ==> w.view[i] == RowOf(w.model.files[i]))
  }

  ghost predicate Consistent(w: Shown) {
    && Spans(w.model, w.touched)
    && Current(w)
    && w.model.totalBytes == TotalSize(w.model.files)
    && (w.touched != {} ==> w.model.armed)
  }

  /** How far the running total is from the sum of the rows. */
  function Drift(m: Model): int {
    m.transferredBytes - Sum(m.files)
  }

  lemma {:induction false} SizesUnchanged(a: seq<FileEntry>, b: seq<FileEntry>)
    requires |a| == |b| && forall i :: 0 <= i < |a| ==> a[i].size == b[i].size
    ensures TotalSize(a) == TotalSize(b)
  {
    if a != [] {
      SizesUnchanged(a[..|a| - 1], b[..|b| - 1]);
    }
  }

  /** Under every setter, with any argument, the running total moves exactly as the rows do. */
  lemma DriftKept(m: Model, op: Op)
    requires !op.Begin?
    ensures Drift(Apply(m, op)) == Drift(m)
  {
    match op
    case SetFileToken(row, token) =>
      if InRange(m.files, row) { SumUpdate(m.files, row, m.files[row].(token := token)); }
    case SetFileLocalPath(row, path) =>
      if InRange(m.files, row) { SumUpdate(m.files, row, m.files[row].(localPath := path)); }
    case SetFileStatus(row, status) =>
      if InRange(m.files, row) { SumUpdate(m.files, row, WithStatus(m.files, row, status)[row]); }
    case SetFileTransferred(row, bytes) =>
      if InRange(m.files, row) { SumUpdate(m.files, row, WithTransferred(m.files, row, bytes)[row]); }
    case _ =>
  }

  lemma SpanKept(w: Shown, op: Op)
    requires Consistent(w)
    ensures var n := Show(w, op); Spans(n.model, n.touched)
  {
  }

  lemma ViewKept(w: Shown, op: Op)
    requires Consistent(w)
    ensures Current(Show(w, op))
  {
  }

  lemma ShowKeeps(w: Shown, op: Op)
    requires Consistent(w)
    ensures Consistent(Show(w, op))
  {
    SpanKept(w, op);
    ViewKept(w, op);
    if !op.Begin? {
      SizesUnchanged(w.model.files, Apply(w.model, op).files);
    }
  }

  function ShowAll(w: Shown, ops: seq<Op>): (r: Shown)
    requires Consistent(w)
    ensures Consistent(r)
    decreases |ops|
  {
    if ops == [] then w else ShowKeeps(w, ops[0]); ShowAll(Show(w, ops[0]), ops[1..])
  }

  predicate Fresh(files: seq<FileEntry>) {
    forall i :: 0 <= i < |files| ==> files[i].transferred == 0
  }

  lemma {:induction false} FreshSum(files: seq<FileEntry>)
    requires Fresh(files)
    ensures Sum(files) == 0
  {
    if files != [] {
      FreshSum(files[..|files| - 1]);
    }
  }

  predicate FreshBegins(ops: seq<Op>) {
    forall i :: 0 <= i < |ops| && ops[i].Begin? ==> Fresh(ops[i].files)
  }

  /** Over every run the total is the sum of the rows, and the next time the timer fires, if it is
      running at all, the view is brought up to the model, however the reports arrived. */
  lemma {:induction false} TotalsAndView(w: Shown, ops: seq<Op>)
    requires Consistent(w) && Drift(w.model) == 0 && FreshBegins(ops)
    ensures var r := ShowAll(w, ops);
            && r.model.transferredBytes == Sum(r.model.files)
            && Show(r, FlushTimer).view == Rows(r.model.files)
    decreases |ops|
  {
    if ops == [] {
      ViewKept(w, FlushTimer);
    } else {
      ShowKeeps(w, ops[0]);
      if ops[0].Begin? {
        FreshSum(ops[0].files);
      } else {
        DriftKept(w.model, ops[0]);
      }
      TotalsAndView(Show(w, ops[0]), ops[1..]);
    }
  }

  // --- a row that has more than it is long -------------------------------------------------

  function ApplyAll(m: Model, ops: seq<Op>): (r: Model)
    decreases |ops|
  {
    if ops == [] then m else ApplyAll(Apply(m, ops[0]), ops[1..])
  }

  predicate Within(files: seq<FileEntry>) {
    forall i :: 0 <= i < |files| ==> files[i].transferred <= files[i].size
  }

  predicate NoneEmpty(files: seq<FileEntry>) {
    forall i :: 0 <= i < |files| ==> files[i].size > 0
  }

  predicate OrdinaryBegins(ops: seq<Op>) {
    forall i :: 0 <= i < |ops| && ops[i].Begin? ==> Fresh(ops[i].files) && NoneEmpty(ops[i].files)
  }

  lemma WithinKept(m: Model, op: Op)
    requires Within(m.files) && NoneEmpty(m.files)
    requires op.Begin? ==> Fresh(op.files) && NoneEmpty(op.files)
    ensures Within(Apply(m, op).files) && NoneEmpty(Apply(m, op).files)
  {
  }

  lemma {:induction false} WithinAll(m: Model, ops: seq<Op>)
    requires Within(m.files) && NoneEmpty(m.files) && OrdinaryBegins(ops)
    ensures Within(ApplyAll(m, ops).files)
    decreases |ops|
  {
    if ops != [] {
      WithinKept(m, ops[0]);
      WithinAll(Apply(m, ops[0]), ops[1..]);
    }
  }

  /** No run of the setters makes any row report more than its size exactly when no row is empty:
      the report of an empty row is taken as it comes. */
  lemma NoOverrunExactly(m: Model)
    requires Within(m.files)
    ensures (forall ops: seq<Op> :: OrdinaryBegins(ops) ==> Within(ApplyAll(m, ops).files)) <==> NoneEmpty(m.files)
  {
    if NoneEmpty(m.files) {
      forall ops: seq<Op> | OrdinaryBegins(ops)
        ensures Within(ApplyAll(m, ops).files)
      {
        WithinAll(m, ops);
      }
    } else {
      var row :| 0 <= row < |m.files| && m.files[row].size == 0;
      Overrun(m, row);
    }
  }

  lemma Overrun(m: Model, row: nat)
    requires Within(m.files) && row < |m.files| && m.files[row].size == 0
    ensures var ops := [Op.SetFileTransferred(row, 1)]; OrdinaryBegins(ops) && !Within(ApplyAll(m, ops).files)
  {
    var op := Op.SetFileTransferred(row, 1);
    assert ApplyAll(m, [op]) == ApplyAll(Apply(m, op), []) == Apply(m, op);
    assert Apply(m, op).files[row].transferred == 1 && Apply(m, op).files[row].size == 0;
  }
}
