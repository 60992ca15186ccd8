/** The sending side as a machine: the handshake, then one file after another. SendService.dfy is the
    object that does it. */
module Send {
  import opened Transfers
  import Bytes
  import Naming

  type Option<+T> = Bytes.Option<T>

  /** 0 stands for the empty string. */
  type Secret = nat
  type ReplyId = nat

  /** -1 before the first file. */
  type RowIndex = r: int | -1 <= r witness -1

  /** What prepare-upload says of a file. */
  datatype Offer = Offer(id: Text, fileName: Text, size: nat)

  /** A request as it goes out; the body of an upload is what is read from `path`. */
  datatype Request =
    | Prepare(offers: seq<Offer>)
    | Upload(row: nat, session: Secret, id: Text, token: Token, size: nat, path: Text)

  datatype Sender = Sender(
    busy: bool,
    cancelled: bool,
    pinAttempted: bool,
    session: Secret,
    currentRow: RowIndex,
    flight: map<ReplyId, Request>, // replies still to come
    reply: Option<ReplyId>,       // the one the service keeps hold of
    issued: nat,                  // requests sent so far
    files: seq<FileEntry>,
    state: State,
    begun: nat,                   // runs that became busy
    ended: nat,                   // finished() signals
    uploading: bool)              // the current or last run got as far as uploading

  const IDLE := Sender(false, false, false, 0, -1, map[], Bytes.None, 0, [], State.Idle, 0, 0, false)

  // --- starting ----------------------------------------------------------------------

  /** A picked path: what the file system says about it, and the random part of its id. */
  datatype Source = Source(path: Text, fileName: Text, size: nat, readable: bool, salt: Text)

  const DASH: Unit := 0x2D

  function IdOf(index: nat, salt: Text): Text {
    Naming.Number(index) + [DASH] + salt
  }

  /** The rows for the readable ones among the first `n` sources, ids numbered by position. */
  function EntriesOf(sources: seq<Source>, n: nat): (r: seq<FileEntry>)
    requires n <= |sources|
    ensures |r| <= n
  {
    if n == 0 then []
    else
      var f := sources[n - 1];
      EntriesOf(sources, n - 1)
      + if !f.readable then []
        else [FileEntry(IdOf(n - 1, f.salt), f.fileName, f.size, [], 0, f.path, 0, FileWaiting)]
  }

  function OffersOf(files: seq<FileEntry>): (r: seq<Offer>)
    ensures |r| == |files|
  {
    seq(|files|, i requires 0 <= i < |files| => Offer(files[i].id, files[i].fileName, files[i].size))
  }

  function UploadOf(s: Sender, row: nat): Request
    requires row < |s.files|
  {
    var f := s.files[row];
    Upload(row, s.session, f.id, f.token, f.size, f.localPath)
  }

  function Post(s: Sender, r: Request): Sender {
    s.(flight := s.flight[s.issued := r], reply := Bytes.Some(s.issued), issued := s.issued + 1)
  }

  /** A run begins by asking the receiver for the files. */
  function Ask(s: Sender, entries: seq<FileEntry>): Sender {
    Post(s.(session := 0, cancelled := false, pinAttempted := false, busy := true, files := entries,
            state := State.Requesting, begun := s.begun + 1, uploading := false), Prepare(OffersOf(entries)))
  }

  function SendFiles(s: Sender, reachable: bool, blocked: bool, sources: seq<Source>): Sender {
    if s.busy || !reachable || sources == [] then s
    else if blocked then s.(files := [], state := State.Failed)
    else
      var entries := EntriesOf(sources, |sources|);
      if entries == [] then s else Ask(s, entries)
  }

  function SubmitPin(s: Sender, empty: bool): Sender {
    if !s.busy || empty then s
    else Post(s.(pinAttempted := true, state := State.Requesting), Prepare(OffersOf(s.files)))
  }

  // --- ending --------------------------------------------------------------------------

  function SkipWaiting(f: FileEntry): FileEntry {
    if f.status.FileWaiting? then f.(status := FileSkipped) else f
  }

  function SkipUnfinished(f: FileEntry): FileEntry {
    if f.status.FileWaiting? || f.status.FileTransferring? then f.(status := FileSkipped) else f
  }

  function Each(files: seq<FileEntry>, f: FileEntry -> FileEntry): (r: seq<FileEntry>)
    ensures |r| == |files|
  {
    seq(|files|, i requires 0 <= i < |files| => f(files[i]))
  }

  function Fail(s: Sender): Sender {
    s.(files := Each(s.files, SkipWaiting), state := State.Failed, busy := false, session := 0, ended := s.ended + 1)
  }

  function Complete(s: Sender): Sender {
    s.(state := if Count(s.files, IsDone) == |s.files| then State.Finished else State.Failed,
       busy := false, session := 0, ended := s.ended + 1)
  }

  function EndQuietly(s: Sender, state: State): Sender {
    s.(state := state, busy := false, ended := s.ended + 1)
  }

  /** Aborting the reply delivers it at once, to a slot that does nothing any more. */
  function Cancel(s: Sender): Sender {
    if !s.busy then s
    else
      s.(cancelled := true,
         flight := if s.reply.Some? then s.flight - {s.reply.value} else s.flight,
         reply := Bytes.None,
         files := Each(s.files, SkipUnfinished), state := State.Cancelled,
         busy := false, session := 0, ended := s.ended + 1)
  }

  // --- files, one after another -----------------------------------------------------------

  /** The first waiting row from `row` on, or the number of rows. */
  function NextWaiting(files: seq<FileEntry>, row: nat): (r: nat)
    requires row <= |files|
    ensures row <= r <= |files|
    ensures forall i :: row <= i < r ==> !files[i].status.FileWaiting?
    ensures r < |files| ==> files[r].status.FileWaiting?
    decreases |files| - row
  {
    if row == |files| || files[row].status.FileWaiting? then row else NextWaiting(files, row + 1)
  }

  /** `opens` are the rows whose file can still be opened; the others fail on the spot. */
  function StartNextFile(s: Sender, opens: set<nat>): (r: Sender)
    decreases |s.files| - s.currentRow
  {
    if s.cancelled then s
    else if s.currentRow + 1 > |s.files| then Complete(s)
    else
      var row := NextWaiting(s.files, s.currentRow + 1);
      if row == |s.files| then Complete(s)
      else if row !in opens then
        StartNextFile(s.(currentRow := row, files := WithStatus(s.files, row, FileFailed)), opens)
      else Post(s.(currentRow := row, files := WithStatus(s.files, row, FileTransferring)), UploadOf(s, row))
  }

  // --- replies -----------------------------------------------------------------------------

  /** The reply is handled: it is out of flight, and forgotten if it was the one kept hold of. */
  function Taken(s: Sender, id: ReplyId): Sender {
    s.(flight := s.flight - {id}, reply := if s.reply == Bytes.Some(id) then Bytes.None else s.reply)
  }

  /** The body of a 200 to prepare-upload. */
  datatype Grant = Grant(session: Secret, tokens: map<Text, Token>)

  function TokenFor(grant: Grant, id: Text): Token {
    if id in grant.tokens then grant.tokens[id] else 0
  }

  /** A file the receiver left out is skipped. */
  function Granted(f: FileEntry, grant: Grant): FileEntry {
    if TokenFor(grant, f.id) == 0 then f.(status := FileSkipped) else f.(token := TokenFor(grant, f.id))
  }

  function GrantAll(files: seq<FileEntry>, grant: Grant): (r: seq<FileEntry>)
    ensures |r| == |files|
  {
    Each(files, f => Granted(f, grant))
  }

  predicate AnyGranted(files: seq<FileEntry>, grant: Grant) {
    exists i :: 0 <= i < |files| && TokenFor(grant, files[i].id) != 0
  }

  /** `grant` is None when the body could not be read. */
  function PrepareReply(s: Sender, id: ReplyId, status: int, grant: Option<Grant>, opens: set<nat>): Sender {
    var t := Taken(s, id);
    if t.cancelled then t
    else if status == 204 then EndQuietly(t, State.Finished)
    else if status == 401 then t.(state := State.Idle)
    else if status == 403 then EndQuietly(t, State.Cancelled)
    else if status != 200 then Fail(t)
    else
      match grant
      case None => Fail(t)
      case Some(g) =>
        var u := t.(session := g.session);
        if g.session == 0 || g.tokens == map[] then Fail(u)
        else if !AnyGranted(u.files, g) then EndQuietly(u.(files := GrantAll(u.files, g)), State.Finished)
        else
          StartNextFile(u.(files := GrantAll(u.files, g), state := State.Active, currentRow := -1, uploading := true), opens)
  }

  predicate Success(status: int, error: bool) {
    !error && 200 <= status < 300
  }

  function UploadReply(s: Sender, id: ReplyId, status: int, error: bool, opens: set<nat>): Sender
  {
    var t := Taken(s, id);
    if t.cancelled then t
    else if Success(status, error) then
      StartNextFile(t.(files := WithStatus(t.files, t.currentRow, FileDone)), opens)
    else
      var failed := t.(files := WithStatus(t.files, t.currentRow, FileFailed));
      if status == 409 then Fail(failed) else StartNextFile(failed, opens)
  }

  // --- events --------------------------------------------------------------------------------

  datatype Event =
    | UserSends(reachable: bool, blocked: bool, sources: seq<Source>)
    | UserEntersPin(empty: bool)
    | UserCancels
    | PrepareAnswered(id: ReplyId, status: int, grant: Option<Grant>, opens: set<nat>)
    | UploadAnswered(id: ReplyId, status: int, error: bool, opens: set<nat>)
    | Progress(id: ReplyId, sent: int)

  predicate Enabled(s: Sender, e: Event) {
    match e
    case PrepareAnswered(id, _, _, _) => id in s.flight && s.flight[id].Prepare?
    case UploadAnswered(id, _, _, _) => id in s.flight && s.flight[id].Upload?
    case Progress(id, _) => id in s.flight && s.flight[id].Upload?
    case _ => true
  }

  function Next(s: Sender, e: Event): Sender
    requires Enabled(s, e)
  {
    match e
    case UserSends(reachable, blocked, sources) => SendFiles(s, reachable, blocked, sources)
    case UserEntersPin(empty) => SubmitPin(s, empty)
    case UserCancels => Cancel(s)
    case PrepareAnswered(id, status, grant, opens) => PrepareReply(s, id, status, grant, opens)
    case UploadAnswered(id, status, error, opens) => UploadReply(s, id, status, error, opens)
    case Progress(id, sent) => s.(files := WithTransferred(s.files, s.flight[id].row, sent))
  }

  function Take(s: Sender, e: Event): Sender {
    if Enabled(s, e) then Next(s, e) else s
  }

  function RunAll(s: Sender, events: seq<Event>): Sender
    decreases |events|
  {
    if events == [] then s else RunAll(Take(s, events[0]), events[1..])
  }
}
