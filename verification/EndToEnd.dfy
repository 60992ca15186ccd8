/** Both ends together, and what lies between them: requests on their way, connections that may be
    dropped, answers that may be lost, and everybody else who talks to the receiver. */
module EndToEnd {
  import opened Transfers
  import S = Send
  import R = Receive
  import SI = SendInvariant
  import RI = ReceiveInvariant
  import RR = ReceiveRows
  import RD = ReceiveDisk
  import SendIds
  import Bytes

  type Byte = Bytes.Byte
  type ReplyId = S.ReplyId
  type ConnId = R.ConnId
  type Secret = nat

  /** The receiver's digest check, and what the sender's files hold; they do not change. */
  datatype Setting = Setting(env: R.Env, source: Text -> seq<Byte>)

  /** A session that was opened for a request of the sender, and the tokens its answer named. */
  datatype Opening = Opening(reply: ReplyId, tokens: map<Text, Token>)

  /** `mail` is every request ever sent, `wire` the connection on which one arrived. `shown` is the
      session whose rows the receiver's model holds, `run` the one the sender's rows belong to, and
      `kept` where the body of a connection was stored. */
  datatype World = World(
    sender: S.Sender,
    receiver: R.Service,
    mail: map<ReplyId, S.Request>,
    wire: map<ConnId, ReplyId>,
    grants: map<Secret, Opening>,
    shown: Secret,
    run: Secret,
    kept: map<ConnId, Text>)

  datatype Event =
    | AtSender(action: S.Event)
    | Reaches(request: ReplyId, c: ConnId, address: Text)
    | AtReceiver(step: R.Event, drops: set<ConnId>)

  // --- what can happen -----------------------------------------------------------------

  predicate Carries(w: World, c: ConnId) {
    c in w.wire && w.wire[c] in w.mail && w.mail[w.wire[c]].Upload?
  }

  function Parcel(w: World, c: ConnId): (r: S.Request)
    requires Carries(w, c)
    ensures r.Upload?
  {
    w.mail[w.wire[c]]
  }

  function Body(g: Setting, w: World, c: ConnId): seq<Byte>
    requires Carries(w, c)
  {
    g.source(Parcel(w, c).path)
  }

  /** The answer to request `q` reads `status` at its head. */
  ghost predicate Answered(w: World, q: ReplyId, status: int) {
    exists c :: c in w.wire && w.wire[c] == q && c in w.receiver.conns
                && w.receiver.conns[c].statuses != [] && w.receiver.conns[c].statuses[0] == status
  }

  /** The sender hears what was answered, or that the connection was lost. Files are as large as they
      are, and a PIN is entered when one is asked for. */
  ghost predicate Plausible(g: Setting, w: World, e: S.Event) {
    match e
    case UserSends(_, _, sources) => forall k :: 0 <= k < |sources| ==> sources[k].size == |g.source(sources[k].path)|
    case UserEntersPin(_) => SI.Polite(w.sender, e)
    case PrepareAnswered(q, status, grant, _) =>
      && (status == 0 || Answered(w, q, status))
      && (grant.Some? ==> grant.value.session in w.grants
                          && w.grants[grant.value.session] == Opening(q, grant.value.tokens))
    case UploadAnswered(q, status, error, _) => error || Answered(w, q, status)
    case _ => true
  }

  /** What a list of offers looks like on the other side: an object's members come in no order. */
  function Described(offers: seq<S.Offer>): seq<R.Descriptor> {
    seq(|offers|, i requires 0 <= i < |offers| => R.Descriptor(offers[i].id, offers[i].fileName, offers[i].size, []))
  }

  /** A connection of the sender delivers the request it carries, its body in order and to the end. A
      stranger may send anything, but does not know the tokens of a session that is not his. */
  predicate Genuine(g: Setting, w: World, e: R.Event) {
    match e
    case PrepareRequest(c, p) =>
      c in w.wire && w.wire[c] in w.mail ==>
        w.mail[w.wire[c]].Prepare? && multiset(p.files) == multiset(Described(w.mail[w.wire[c]].offers))
    case UploadHeaders(c, r, _) =>
      if c in w.wire then
        Carries(w, c) && var m := Parcel(w, c); r == R.UploadRequest(m.session, m.id, m.token, m.size)
      else w.receiver.session in w.grants && r.token != 0 ==> r.token != R.TokenFor(w.receiver, r.fileId)
    case Block(c, data, _) =>
      Carries(w, c) && c in w.receiver.conns ==>
        var from := w.receiver.conns[c].received;
        from + |data| <= |Body(g, w, c)| && data == Body(g, w, c)[from..from + |data|]
    case BodyEnd(c, _) =>
      Carries(w, c) && c in w.receiver.conns ==> w.receiver.conns[c].received == |Body(g, w, c)|
    case CancelRequest(c, _) => c !in w.wire
    case OtherRequest(c, _) => c !in w.wire
    case _ => true
  }

  ghost predicate Can(g: Setting, w: World, e: Event) {
    match e
    case AtSender(action) => S.Enabled(w.sender, action) && Plausible(g, w, action)
    case Reaches(q, c, _) => q in w.mail && q !in w.wire.Values && c !in w.receiver.conns
    case AtReceiver(step, _) => R.Enabled(w.receiver, step) && Genuine(g, w, step)
  }

  // --- what it does ----------------------------------------------------------------------

  function Sent(w: World, t: S.Sender): map<ReplyId, S.Request> {
    if w.sender.issued < t.issued && w.sender.issued in t.flight then
      w.mail[w.sender.issued := t.flight[w.sender.issued]]
    else w.mail
  }

  function ToSender(w: World, e: S.Event): World
    requires S.Enabled(w.sender, e)
  {
    var t := S.Next(w.sender, e);
    w.(sender := t, mail := Sent(w, t), run := RunAfter(w, e))
  }

  function RunAfter(w: World, e: S.Event): Secret {
    if e.PrepareAnswered? && e.grant.Some? then e.grant.value.session else w.run
  }

  /** Whose request a session that starts now was opened for. */
  function Opener(w: World, e: R.Event): Bytes.Option<ConnId> {
    match e
    case PrepareRequest(c, _) => Bytes.Some(c)
    case _ => w.receiver.pending
  }

  function GrantsAfter(w: World, e: R.Event, t: R.Service): map<Secret, Opening> {
    var p := Opener(w, e);
    if w.receiver.session == 0 && t.session != 0 && p.Some? && p.value in w.wire then
      w.grants[t.session := Opening(w.wire[p.value], t.tokens)]
    else w.grants
  }

  function ShownAfter(w: World, e: R.Event, t: R.Service): Secret {
    if t.session != 0 then t.session
    else if e.PrepareRequest? && R.Verdict(w.receiver, e.prepare) == 0 then 0
    else w.shown
  }

  function KeptAfter(g: Setting, w: World, e: R.Event): map<ConnId, Text>
    requires R.Enabled(w.receiver, e)
  {
    match e
    case BodyEnd(c, renames) =>
      if Carries(w, c) && c in w.receiver.uploads && R.Outcome(g.env, w.receiver, w.receiver.uploads[c]) == 200 then
        w.kept[c := R.KeptPath(w.receiver, w.receiver.uploads[c], renames)]
      else w.kept
    case _ => w.kept
  }

  function ToReceiver(g: Setting, w: World, e: R.Event, drops: set<ConnId>): World
    requires R.Enabled(w.receiver, e)
  {
    var t := R.Next(g.env, w.receiver, e, drops);
    w.(receiver := t, grants := GrantsAfter(w, e, t), shown := ShownAfter(w, e, t), kept := KeptAfter(g, w, e))
  }

  function After(g: Setting, w: World, e: Event): World
    requires Can(g, w, e)
  {
    match e
    case AtSender(action) => ToSender(w, action)
    case Reaches(q, c, address) => ToReceiver(g, w.(wire := w.wire[c := q]), R.Connected(c, address), {})
    case AtReceiver(step, drops) => ToReceiver(g, w, step, drops)
  }

  // --- what holds ----------------------------------------------------------------------

  /** A session whose grant the sender has taken up. */
  ghost predicate Spent(w: World, session: Secret) {
    && session in w.grants
    && w.grants[session].reply !in w.sender.flight && w.grants[session].reply < w.sender.issued
  }

  /** No file goes out twice under one session. */
  ghost predicate MailApart(w: World) {
    forall p, q {:trigger w.mail[p], w.mail[q]} ::
      p in w.mail && q in w.mail && p != q && w.mail[p].Upload? && w.mail[q].Upload? ==>
        w.mail[p].session != w.mail[q].session || w.mail[p].id != w.mail[q].id
  }

  ghost predicate MailSpent(w: World) {
    forall q :: q in w.mail && w.mail[q].Upload? ==> Spent(w, w.mail[q].session)
  }

  ghost predicate WireOk(w: World) {
    && (forall c :: c in w.wire ==> w.wire[c] in w.mail)
    && (forall c, d {:trigger w.wire[c], w.wire[d]} :: c in w.wire && d in w.wire && c != d ==> w.wire[c] != w.wire[d])
    && (forall c :: c in w.kept ==> Carries(w, c) && c !in w.receiver.uploads)
  }

  ghost predicate TablesOk(w: World) {
    && (forall c :: c in w.wire ==> c in w.receiver.conns)
    && (forall c :: c in w.kept ==> c in w.receiver.conns && w.receiver.conns[c].complete)
    && !(w.receiver.pending.Some? && Carries(w, w.receiver.pending.value))
    && (forall k :: k in w.grants ==> 0 < k <= w.receiver.issued)
    && (forall c :: c in w.receiver.uploads && Carries(w, c) ==> w.shown in w.grants)
    && w.shown <= w.receiver.issued
    && (w.receiver.session != 0 ==> w.shown == w.receiver.session)
    && (w.receiver.pending.Some? ==> w.shown == 0)
  }

  /** An upload that is under way writes the beginning of the body it carries. */
  ghost predicate Writing(g: Setting, w: World, c: ConnId)
    requires c in w.receiver.uploads
  {
    var u := w.receiver.uploads[c];
    && Carries(w, c) && Parcel(w, c).session == w.shown
    && RowOfId(w.receiver.files, Parcel(w, c).id) == u.row
    && u.part in w.receiver.disk && w.receiver.disk[u.part] <= Body(g, w, c)
  }

  /** A finished row was sent by somebody. */
  ghost predicate Vouched(w: World, j: nat) {
    exists c :: c in w.kept && Carries(w, c) && Parcel(w, c).session == w.shown
                && RowOfId(w.receiver.files, Parcel(w, c).id) == j
  }

  /** The receiver counts the file that `c` brought as done, and points at where it is. */
  predicate Counted(w: World, c: ConnId)
    requires c in w.kept && Carries(w, c)
  {
    var j := RowOfId(w.receiver.files, Parcel(w, c).id);
    j >= 0 && IsDone(w.receiver.files[j]) && w.receiver.files[j].localPath == w.kept[c]
  }

  ghost predicate RowsOk(g: Setting, w: World) {
    && (forall c :: c in w.receiver.uploads ==> Writing(g, w, c))
    && (forall j: nat :: j < |w.receiver.files| && IsDone(w.receiver.files[j]) ==> Vouched(w, j))
    && (forall c :: c in w.kept && Carries(w, c) && Parcel(w, c).session == w.shown ==> Counted(w, c))
  }

  /** What `c` brought is stored, byte for byte, and nobody is writing there. */
  ghost predicate Stored(g: Setting, w: World, c: ConnId)
    requires c in w.kept && Carries(w, c)
  {
    && w.kept[c] in w.receiver.disk && w.receiver.disk[w.kept[c]] == Body(g, w, c)
    && w.kept[c] !in R.PartsOf(w.receiver.uploads)
  }

  /** Only a file called like the write probe can be lost, and only to a later session. */
  ghost predicate KeptOk(g: Setting, w: World) {
    forall c :: c in w.kept && Carries(w, c) ==>
      Stored(g, w, c) || (RD.ProbeNamed(w.kept[c]) && Parcel(w, c).session != w.shown)
  }

  ghost predicate AnswersOk(w: World) {
    forall c :: Carries(w, c) && c in w.receiver.conns && RR.Good(w.receiver.conns[c]) ==> c in w.kept
  }

  /** The receiving half. */
  ghost predicate ReceiverOk(g: Setting, w: World) {
    && RI.Inv(g.env, w.receiver)
    && WireOk(w) && TablesOk(w) && MailApart(w) && MailSpent(w)
    && (w.shown in w.grants ==> RowsOk(g, w))
    && KeptOk(g, w) && AnswersOk(w)
  }

  // --- the sending half ----------------------------------------------------------------

  /** A file the sender counts as done was stored by the receiver, in this run's session. */
  ghost predicate Backed(w: World, f: FileEntry) {
    exists c :: c in w.kept && Carries(w, c) && Parcel(w, c).session == w.run
                && Parcel(w, c).id == f.id && Parcel(w, c).path == f.localPath
  }

  /** No file with this id is still to be sent. */
  ghost predicate Past(s: S.Sender, id: Text) {
    forall i :: s.currentRow < i < |s.files| ==> s.files[i].id != id
  }

  /** Whatever is out has been written down. */
  ghost predicate Known(w: World) {
    && (forall q :: q in w.sender.flight ==> q in w.mail && w.mail[q] == w.sender.flight[q])
    && (forall q :: q in w.mail ==> q < w.sender.issued)
  }

  /** What has gone out under the session of this run will not go out again, and what is done is
      there. */
  ghost predicate RunOk(w: World) {
    && SendIds.IdsApart(w.sender.files)
    && (w.sender.session != 0 ==> Spent(w, w.sender.session) && w.run == w.sender.session)
    && (w.sender.busy && w.sender.uploading ==>
          forall q :: q in w.mail && w.mail[q].Upload? && w.mail[q].session == w.sender.session ==> Past(w.sender, w.mail[q].id))
    && (forall i :: 0 <= i < |w.sender.files| && IsDone(w.sender.files[i]) ==> Backed(w, w.sender.files[i]))
  }

  ghost predicate SenderOk(w: World) {
    SI.Inv(w.sender) && Known(w) && RunOk(w)
  }

  ghost predicate Inv(g: Setting, w: World) {
    ReceiverOk(g, w) && SenderOk(w)
  }
}
