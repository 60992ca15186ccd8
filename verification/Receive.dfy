/** The receiving side as a machine: what every slot of the receive service does to its session, its
    uploads, its connections and the download folder. ReceiveService.dfy is the object that does
    it. */
module Receive {
  import opened Transfers
  import Bytes
  import Naming

  type Byte = Bytes.Byte
  type Option<+T> = Bytes.Option<T>

  /** A connection, by its place in the server's table. */
  type ConnId = nat

  /** Session ids and tokens are drawn fresh; 0 stands for the empty string. */
  type Secret = nat

  const MAX_FILES := 2000

  /** What the HTTP layer keeps of a connection. `sink` is the part file its body is streamed to and
      the most bytes allowed there. */
  datatype Sink = Sink(part: Text, ceiling: nat)
  datatype Conn = Conn(
    address: Text, open: bool, answered: bool, headSeen: bool, complete: bool,
    sink: Option<Sink>, received: nat, statuses: seq<int>)

  /** One file being written; `hashed` is what has gone into its running digest. */
  datatype Upload = Upload(row: nat, part: Text, final: Text, hashed: seq<Byte>)

  datatype SessionEvent = Started(id: Secret) | Ended(id: Secret)

  datatype Service = Service(
    conns: map<ConnId, Conn>,
    pending: Option<ConnId>,
    session: Secret,
    address: Text,
    directory: Text,
    tokens: map<Text, Token>,
    uploads: map<ConnId, Upload>,
    acceptTimer: bool,
    idleTimer: bool,
    files: seq<FileEntry>,
    state: State,
    disk: map<Text, seq<Byte>>,
    issued: nat,               // secrets drawn so far
    stray: bool,               // a byte was written to a file that is not open
    log: seq<SessionEvent>)

  /** The check of what was written against the digest that was declared for it, if any. */
  datatype Env = Env(accepts: (seq<Byte>, Text) -> bool)

  // --- connections --------------------------------------------------------------------

  /** A connection after respond(): only the first answer is written, and the socket may go down
      inside the call. */
  function Mark(c: Conn, status: int, drops: bool): Conn {
    if c.answered then c
    else c.(answered := true, statuses := c.statuses + [status], open := c.open && !drops)
  }

  function AnswerAll(conns: map<ConnId, Conn>, who: set<ConnId>, status: int, drops: set<ConnId>): (r: map<ConnId, Conn>)
    ensures r.Keys == conns.Keys
  {
    map c | c in conns :: if c in who then Mark(conns[c], status, c in drops) else conns[c]
  }

  /** An answer to a connection whose closing concerns nobody here. */
  function Reply(s: Service, c: ConnId, status: int, drops: set<ConnId>): Service {
    s.(conns := AnswerAll(s.conns, {c}, status, drops))
  }

  // --- ending a session ------------------------------------------------------------------

  function RowsOf(uploads: map<ConnId, Upload>): set<nat> {
    set c | c in uploads :: uploads[c].row
  }

  function PartsOf(uploads: map<ConnId, Upload>): set<Text> {
    set c | c in uploads :: uploads[c].part
  }

  /** A row of `cut` failed; of the others, whatever was not finished is skipped. */
  function CutOff(f: FileEntry, cut: bool): FileEntry {
    if cut then f.(status := FileFailed)
    else if f.status.FileWaiting? || f.status.FileTransferring? then f.(status := FileSkipped)
    else f
  }

  function CutOffAll(files: seq<FileEntry>, rows: set<nat>): (r: seq<FileEntry>)
    ensures |r| == |files|
  {
    seq(|files|, i requires 0 <= i < |files| => CutOff(files[i], i in rows))
  }

  /** Whether somebody stopped the session or it came to its own end. */
  datatype Ending = Stopped | Over

  function EndState(files: seq<FileEntry>, how: Ending): State {
    if how.Stopped? then State.Cancelled
    else if Count(files, IsDone) == |files| then State.Finished
    else State.Failed
  }

  /** Every way a session ends goes through here. */
  function FinishSession(s: Service, how: Ending, drops: set<ConnId>): Service {
    if s.session == 0 && s.pending.None? then s
    else
      var conns := AnswerAll(s.conns, s.uploads.Keys, 500, drops);
      var t := s.(
        idleTimer := false, acceptTimer := false,
        conns := if s.pending.Some? then AnswerAll(conns, {s.pending.value}, 403, drops) else conns,
        disk := s.disk - PartsOf(s.uploads),
        uploads := map[],
        pending := Bytes.None);
      if s.session == 0 then t.(state := State.Cancelled)
      else
        var files := CutOffAll(s.files, RowsOf(s.uploads));
        t.(files := files, state := EndState(files, how),
           session := 0, address := [], directory := [], tokens := map[],
           log := s.log + [Ended(s.session)])
  }

  function FinishIfSettled(s: Service, drops: set<ConnId>): Service {
    if AllSettled(s.files) then FinishSession(s, Over, drops) else s
  }

  // --- a socket that goes away ----------------------------------------------------------

  function PendingGone(s: Service): Service {
    s.(pending := Bytes.None, acceptTimer := false, state := if s.session == 0 then State.Idle else s.state)
  }

  /** The upload table without `c`, its part file gone and its row failed. */
  function DropUpload(s: Service, c: ConnId): Service
    requires c in s.uploads
  {
    var u := s.uploads[c];
    s.(uploads := s.uploads - {c}, disk := s.disk - {u.part}, files := WithStatus(s.files, u.row, FileFailed))
  }

  /** closed() was emitted for `c`: the slot that is connected for it runs. */
  function SlotsOnClosed(s: Service, c: ConnId, drops: set<ConnId>): Service {
    if s.pending == Bytes.Some(c) then PendingGone(s)
    else if c in s.uploads then FinishIfSettled(DropUpload(s, c), drops)
    else s
  }

  function SocketGone(s: Service, c: ConnId, drops: set<ConnId>): Service {
    if c !in s.conns || !s.conns[c].open then s
    else SlotsOnClosed(s.(conns := s.conns[c := s.conns[c].(open := false, answered := true)]), c, drops)
  }

  /** An answer that may take the connection's socket down, and its slots with it. */
  function Respond(s: Service, c: ConnId, status: int, drops: set<ConnId>): Service {
    if c !in s.conns || s.conns[c].answered then s
    else
      var t := Reply(s, c, status, drops);
      if s.conns[c].open && c in drops then SlotsOnClosed(t, c, drops) else t
  }

  // --- prepare-upload --------------------------------------------------------------------

  datatype Descriptor = Descriptor(id: Text, fileName: Text, size: int, sha256: Text)

  /** A prepare-upload request with the verdicts of the checks that do not touch the session. */
  datatype Prepare = Prepare(
    enabled: bool, allowed: bool, pinOk: bool, hasInfo: bool, files: seq<Descriptor>,
    identityOk: bool, blocked: bool, quickSave: bool, folder: Option<Text>)

  const FILE: Text := [0x66, 0x69, 0x6C, 0x65]

  function EntryOf(d: Descriptor): FileEntry {
    FileEntry(d.id, if d.fileName == [] then FILE else d.fileName, if d.size < 0 then 0 else d.size,
              Naming.SanitizeText(d.sha256, 128), 0, [], 0, FileWaiting)
  }

  function EntriesOf(ds: seq<Descriptor>): (r: seq<FileEntry>)
    ensures |r| == |ds|
  {
    seq(|ds|, i requires 0 <= i < |ds| => EntryOf(ds[i]))
  }

  /** The status a request is refused with, 0 when it is put to the user. */
  function Verdict(s: Service, p: Prepare): int {
    if !p.enabled then 403
    else if s.pending.Some? || s.session != 0 then 409
    else if !p.allowed then 429
    else if !p.pinOk then 401
    else if !p.hasInfo then 400
    else if p.files == [] then 204
    else if |p.files| > MAX_FILES then 400
    else if !p.identityOk then 403
    else if p.blocked then 403
    else 0
  }

  function PrepareUpload(s: Service, c: ConnId, p: Prepare, drops: set<ConnId>): Service
    requires c in s.conns
  {
    var t := s.(conns := s.conns[c := s.conns[c].(headSeen := true, complete := true)]);
    var status := Verdict(s, p);
    if status != 0 then Reply(t, c, status, drops)
    else
      var parked := t.(files := EntriesOf(p.files), state := State.Pending, pending := Bytes.Some(c));
      if p.quickSave then Accept(parked, p.folder, drops) else parked.(acceptTimer := true)
  }

  function WithTokens(files: seq<FileEntry>, base: nat): (r: seq<FileEntry>)
    ensures |r| == |files|
  {
    seq(|files|, i requires 0 <= i < |files| => files[i].(token := base + i))
  }

  /** File id to token; the last of several rows with one id wins. */
  function TokenTable(files: seq<FileEntry>): map<Text, Token> {
    if files == [] then map[]
    else TokenTable(files[..|files| - 1])[files[|files| - 1].id := files[|files| - 1].token]
  }

  function ProbePath(directory: Text): Text {
    directory + [Naming.SLASH] + Naming.PROBE
  }

  /** `folder` is the directory that was prepared, None when it cannot be written to. Preparing it
      creates and removes the probe file. */
  function Accept(s: Service, folder: Option<Text>, drops: set<ConnId>): Service {
    match s.pending
    case None => s
    case Some(p) =>
      var conns := AnswerAll(s.conns, {p}, if folder.Some? then 200 else 500, drops);
      var released := s.(conns := conns, pending := Bytes.None, acceptTimer := false);
      match folder
      case None => released.(state := State.Failed)
      case Some(directory) =>
        var files := WithTokens(s.files, s.issued + 2);
        released.(
          session := s.issued + 1, directory := directory,
          address := if p in s.conns then s.conns[p].address else [],
          files := files, tokens := TokenTable(files), issued := s.issued + 1 + |files|,
          state := State.Active, idleTimer := true,
          disk := s.disk - {ProbePath(directory)},
          log := s.log + [Started(s.issued + 1)])
  }

  function Decline(s: Service, drops: set<ConnId>): Service {
    match s.pending
    case None => s
    case Some(p) => Reply(s, p, 403, drops).(pending := Bytes.None, acceptTimer := false, state := State.Idle)
  }

  /** The timer has fired, so it is no longer running. */
  function AcceptTimeout(s: Service, drops: set<ConnId>): Service {
    Decline(s, drops).(acceptTimer := false)
  }

  // --- uploads ---------------------------------------------------------------------------

  /** The head of an upload request; `length` is -1 for a chunked body. */
  datatype UploadRequest = UploadRequest(session: Secret, fileId: Text, token: Token, length: int)

  function TokenFor(s: Service, fileId: Text): Token {
    if fileId in s.tokens then s.tokens[fileId] else 0
  }

  /** The status an upload is answered with at once, 0 when it goes on to the folder. */
  function Admission(s: Service, c: ConnId, r: UploadRequest): int
    requires c in s.conns
  {
    if r.session == 0 || r.fileId == [] || r.token == 0 then 400
    else if s.session == 0 || r.session != s.session then 409
    else if TokenFor(s, r.fileId) != r.token || s.conns[c].address != s.address then 403
    else
      var row := RowOfId(s.files, r.fileId);
      if row < 0 then 400 else if s.files[row].status.FileDone? then 200 else 0
  }

  function FailRow(s: Service, c: ConnId, row: nat, drops: set<ConnId>): Service {
    Reply(s.(files := WithStatus(s.files, row, FileFailed)), c, 500, drops)
  }

  /** The body of `c` goes to a new part file from here. */
  function OpenUpload(s: Service, c: ConnId, row: nat, final: Text): Service
    requires c in s.conns && row < |s.files|
  {
    var part := final + Naming.PART;
    s.(uploads := s.uploads[c := Upload(row, part, final, [])],
       disk := s.disk[part := []],
       files := WithStatus(s.files, row, FileTransferring),
       conns := s.conns[c := s.conns[c].(sink := Bytes.Some(Sink(part, s.files[row].size)))],
       idleTimer := true)
  }

  function UploadHead(s: Service, c: ConnId, r: UploadRequest, opens: bool, drops: set<ConnId>): Service
    requires c in s.conns
  {
    var t := s.(conns := s.conns[c := s.conns[c].(headSeen := true)]);
    var status := Admission(t, c, r);
    if status != 0 then Reply(t, c, status, drops)
    else TakeUpload(t, c, RowOfId(t.files, r.fileId), r.length, opens, drops)
  }

  /** A free name is reserved, the part file opened, and the announced length checked against the
      size that was agreed to. */
  function TakeUpload(s: Service, c: ConnId, row: nat, length: int, opens: bool, drops: set<ConnId>): Service
    requires c in s.conns && row < |s.files|
  {
    match Naming.Reserve(s.disk.Keys, s.directory, s.files[row].fileName)
    case None => FailRow(s, c, row, drops)
    case Some(final) =>
      if !opens then FailRow(s, c, row, drops)
      else
        var u := OpenUpload(s, c, row, final);
        if length > s.files[row].size then Respond(u, c, 413, drops) else u
  }

  /** `taken` of the block's bytes reach the file; fewer than all of them is a short write. */
  function UploadData(s: Service, c: ConnId, data: seq<Byte>, taken: nat, drops: set<ConnId>): Service
    requires c in s.conns && s.conns[c].sink.Some? && taken <= |data|
  {
    if s.conns[c].received + |data| > s.conns[c].sink.value.ceiling then Respond(s, c, 413, drops)
    else
      var t := Written(s, c, data[..taken]);
      if taken < |data| then Respond(t, c, 500, drops) else Progress(t, c, s.conns[c].received + |data|)
  }

  function Counted(s: Service, c: ConnId, total: nat): Service
    requires c in s.conns
  {
    s.(conns := s.conns[c := s.conns[c].(received := total)])
  }

  /** The block is counted, and reported if the upload is still known. */
  function Progress(s: Service, c: ConnId, total: nat): Service
    requires c in s.conns
  {
    var t := Counted(s, c, total);
    if c !in t.uploads then t
    else t.(files := WithTransferred(t.files, t.uploads[c].row, total), idleTimer := true)
  }

  /** Bytes go to the file behind the sink and into its digest, if that file is still open. */
  function Written(s: Service, c: ConnId, data: seq<Byte>): Service
    requires c in s.conns && s.conns[c].sink.Some?
  {
    var part := s.conns[c].sink.value.part;
    if c in s.uploads && s.uploads[c].part == part && part in s.disk then
      s.(disk := s.disk[part := s.disk[part] + data],
         uploads := s.uploads[c := s.uploads[c].(hashed := s.uploads[c].hashed + data)])
    else s.(stray := true)
  }

  predicate HexDigit(u: Unit) {
    0x30 <= u <= 0x39 || 0x41 <= u <= 0x46 || 0x61 <= u <= 0x66
  }

  predicate LooksLikeSha256(digest: Text) {
    |digest| == 64 && forall i :: 0 <= i < 64 ==> HexDigit(digest[i])
  }

  function Upper(t: Text): (r: Text)
    ensures |r| == |t|
  {
    seq(|t|, i requires 0 <= i < |t| => if 0x61 <= t[i] <= 0x7A then t[i] - 0x20 else t[i])
  }

  /** Only a well-formed SHA-256 is compared, without regard to case. `sha` is the hexadecimal digest,
      an arbitrary function here. */
  predicate DigestOk(sha: seq<Byte> -> Text, hashed: seq<Byte>, declared: Text) {
    LooksLikeSha256(declared) ==> Upper(sha(hashed)) == Upper(declared)
  }

  function Sha256(sha: seq<Byte> -> Text): Env {
    Env((hashed, declared) => DigestOk(sha, hashed, declared))
  }

  function SizeOf(disk: map<Text, seq<Byte>>, path: Text): nat {
    if path in disk then |disk[path]| else 0
  }

  /** The status a whole body is answered with. */
  function Outcome(env: Env, s: Service, u: Upload): int
    requires u.row < |s.files|
  {
    if SizeOf(s.disk, u.part) < s.files[u.row].size then 500
    else if !env.accepts(u.hashed, s.files[u.row].sha256) then 422
    else 200
  }

  /** Where a whole body ends up: under its own name if the rename goes through, which it never does
      over an existing file; otherwise under the part file's. */
  function KeptPath(s: Service, u: Upload, renames: bool): Text {
    if renames && u.final !in s.disk then u.final else u.part
  }

  function Settle(s: Service, u: Upload, renames: bool): Service
    requires u.part in s.disk
  {
    var path := KeptPath(s, u, renames);
    s.(disk := (s.disk - {u.part})[path := s.disk[u.part]],
       files := WithStatus(WithLocalPath(s.files, u.row, path), u.row, FileDone))
  }

  /** The upload leaves the table, its file kept or removed. */
  function Conclude(env: Env, s: Service, c: ConnId, renames: bool): Service
    requires c in s.uploads && s.uploads[c].row < |s.files| && s.uploads[c].part in s.disk
  {
    if Outcome(env, s, s.uploads[c]) == 200 then Settle(s.(uploads := s.uploads - {c}), s.uploads[c], renames)
    else DropUpload(s, c)
  }

  function UploadEnd(env: Env, s: Service, c: ConnId, renames: bool, drops: set<ConnId>): Service
    requires c in s.conns
    requires c in s.uploads ==> s.uploads[c].row < |s.files| && s.uploads[c].part in s.disk
  {
    var t := s.(conns := s.conns[c := s.conns[c].(complete := true)]);
    if c !in t.uploads then Reply(t, c, 400, drops)
    else
      var answered := Reply(Conclude(env, t, c, renames), c, Outcome(env, t, t.uploads[c]), drops);
      FinishIfSettled(answered.(idleTimer := true), drops)
  }

  // --- cancelling ------------------------------------------------------------------------

  function PeerCancel(s: Service, c: ConnId, session: Secret, drops: set<ConnId>): Service
    requires c in s.conns
  {
    var t := Reply(s.(conns := s.conns[c := s.conns[c].(headSeen := true, complete := true)]), c, 200, drops);
    if t.pending.Some? && t.session == 0 then
      t.(pending := Bytes.None, acceptTimer := false, state := State.Cancelled)
    else if t.session != 0 && (session == 0 || session == t.session) then FinishSession(t, Stopped, drops)
    else t
  }

  function UserCancel(s: Service, drops: set<ConnId>): Service {
    if s.pending.Some? && s.session == 0 then Decline(s, drops)
    else if s.session == 0 then s
    else FinishSession(s, Stopped, drops)
  }

  function SessionIdle(s: Service, drops: set<ConnId>): Service {
    var t := s.(idleTimer := false);
    if t.session == 0 then t else FinishSession(t, Over, drops)
  }

  // --- events ----------------------------------------------------------------------------

  /** Everything that can reach the service. `drops` are the sockets that would go down if they were
      answered during the event. */
  datatype Event =
    | Connected(c: ConnId, address: Text)
    | PrepareRequest(c: ConnId, prepare: Prepare)
    | UploadHeaders(c: ConnId, request: UploadRequest, opens: bool)
    | Block(c: ConnId, data: seq<Byte>, taken: nat)
    | BodyEnd(c: ConnId, renames: bool)
    | CancelRequest(c: ConnId, session: Secret)
    | OtherRequest(c: ConnId, status: int)
    | ConnTimeout(c: ConnId)
    | ConnClosed(c: ConnId)
    | UserAccepts(folder: Option<Text>)
    | UserDeclines
    | UserCancels
    | AcceptTimerFires
    | IdleTimerFires
    | StopListening

  /** A request is delivered once, to an open connection that was not answered. */
  predicate Expects(s: Service, c: ConnId) {
    c in s.conns && s.conns[c].open && !s.conns[c].answered && !s.conns[c].complete
  }

  predicate Enabled(s: Service, e: Event) {
    match e
    case Connected(c, _) => c !in s.conns
    case PrepareRequest(c, _) => Expects(s, c) && !s.conns[c].headSeen
    case UploadHeaders(c, _, _) => Expects(s, c) && !s.conns[c].headSeen
    case Block(c, data, taken) => Expects(s, c) && s.conns[c].sink.Some? && data != [] && taken <= |data|
    case BodyEnd(c, _) =>
      && Expects(s, c) && s.conns[c].headSeen
      && (c in s.uploads ==> s.uploads[c].row < |s.files| && s.uploads[c].part in s.disk)
    case CancelRequest(c, _) => Expects(s, c) && !s.conns[c].headSeen
    case OtherRequest(c, _) => Expects(s, c) && !s.conns[c].headSeen
    case ConnTimeout(c) => c in s.conns && s.conns[c].open
    case ConnClosed(c) => c in s.conns && s.conns[c].open
    case AcceptTimerFires => s.acceptTimer
    case IdleTimerFires => s.idleTimer
    case _ => true
  }

  function Next(env: Env, s: Service, e: Event, drops: set<ConnId>): Service
    requires Enabled(s, e)
  {
    match e
    case Connected(c, address) => s.(conns := s.conns[c := Conn(address, true, false, false, false, Bytes.None, 0, [])])
    case PrepareRequest(c, p) => PrepareUpload(s, c, p, drops)
    case UploadHeaders(c, r, opens) => UploadHead(s, c, r, opens, drops)
    case Block(c, data, taken) => UploadData(s, c, data, taken, drops)
    case BodyEnd(c, renames) => UploadEnd(env, s, c, renames, drops)
    case CancelRequest(c, session) => PeerCancel(s, c, session, drops)
    case OtherRequest(c, status) => Reply(s.(conns := s.conns[c := s.conns[c].(headSeen := true, complete := true)]), c, status, drops)
    case ConnTimeout(c) => if s.conns[c].answered then SocketGone(s, c, drops) else Respond(s, c, 408, drops)
    case ConnClosed(c) => SocketGone(s, c, drops)
    case UserAccepts(folder) => Accept(s, folder, drops)
    case UserDeclines => Decline(s, drops)
    case UserCancels => UserCancel(s, drops)
    case AcceptTimerFires => AcceptTimeout(s, drops)
    case IdleTimerFires => SessionIdle(s, drops)
    case StopListening => FinishSession(s, Stopped, drops)
  }
}
