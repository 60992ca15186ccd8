/** What an event of the receiving side does to the session, the secrets and the connections. */
module ReceiveFrame {
  import opened Transfers
  import opened Receive
  import opened ReceiveInvariant
  import opened ReceiveSafety
  import opened ReceiveRows
  import Bytes
  import Naming

  /** No session begins; at most it ends, and at most the parked request is let go. Nobody but `x`
      hears of a success, and only `n` begins to upload. */
  ghost predicate Steady(s: Service, t: Service, x: set<ConnId>, n: set<ConnId>) {
    && (t.session == s.session || t.session == 0)
    && (t.pending == s.pending || t.pending.None?)
    && t.issued == s.issued
    && ConnsHeld(s.conns, t.conns, x)
    && t.uploads.Keys <= s.uploads.Keys + n
  }

  lemma QuietSteady(s: Service, t: Service, x: set<ConnId>)
    requires Quiet(s, t, x)
    ensures Steady(s, t, x, {})
  {
    forall c | c in t.uploads
      ensures c in s.uploads
    {
      assert UploadHeld(s, t, c);
    }
  }

  lemma SteadyThenQuiet(s: Service, t: Service, u: Service, x: set<ConnId>, n: set<ConnId>)
    requires Steady(s, t, {}, n) && Quiet(t, u, x)
    ensures Steady(s, u, x, n)
  {
    QuietSteady(t, u, x);
  }

  // --- an upload is opened ------------------------------------------------------------------

  lemma OpenedInv(env: Env, s: Service, c: ConnId, r: UploadRequest, opens: bool, row: nat, final: Text)
    requires Inv(env, s) && Enabled(s, UploadHeaders(c, r, opens)) && Admission(s, c, r) == 0
    requires row < |s.files|
    requires Naming.Reserve(s.disk.Keys, s.directory, s.files[row].fileName) == Bytes.Some(final)
    ensures c !in s.uploads && final + Naming.PART !in s.disk
    ensures Inv(env, HeadSeen(s, c)) && Inv(env, OpenUpload(HeadSeen(s, c), c, row, final))
  {
    NotUploading(s, c);
    SeenKeeps(s, c, s.conns[c].(headSeen := true));
    DoneFrame(env, s, HeadSeen(s, c).conns);
    Naming.ReservedIsFresh(s.disk.Keys, s.directory, s.files[row].fileName);
    OpenKeeps(env, HeadSeen(s, c), c, row, final);
  }

  lemma OpenedSteady(s: Service, c: ConnId, row: nat, final: Text)
    requires c in s.conns && row < |s.files|
    ensures Steady(s, OpenUpload(HeadSeen(s, c), c, row, final), {}, {c})
  {
  }

  /** An upload that is taken is opened, and whatever follows is quiet. */
  lemma HeadOpens(env: Env, s: Service, c: ConnId, r: UploadRequest, drops: set<ConnId>) returns (row: nat, final: Text)
    requires Inv(env, s) && Enabled(s, UploadHeaders(c, r, true)) && Opens(s, c, r)
    ensures row == RowOfId(s.files, r.fileId) && row < |s.files| && !IsDone(s.files[row])
    ensures Naming.Reserve(s.disk.Keys, s.directory, s.files[row].fileName) == Bytes.Some(final)
    ensures Quiet(OpenUpload(HeadSeen(s, c), c, row, final), UploadHead(s, c, r, true, drops), {})
  {
    row := RowOfId(s.files, r.fileId);
    final := Naming.Reserve(s.disk.Keys, s.directory, s.files[row].fileName).value;
    OpenedInv(env, s, c, r, true, row, final);
    HeadSplits(s, c, r, row, final, drops, OpenUpload(HeadSeen(s, c), c, row, final));
  }

  lemma HeadSteady(env: Env, s: Service, c: ConnId, r: UploadRequest, drops: set<ConnId>)
    requires Inv(env, s) && Enabled(s, UploadHeaders(c, r, true)) && Opens(s, c, r)
    ensures Steady(s, UploadHead(s, c, r, true, drops), {}, {c})
  {
    var row, final := HeadOpens(env, s, c, r, drops);
    OpenedSteady(s, c, row, final);
    SteadyThenQuiet(s, OpenUpload(HeadSeen(s, c), c, row, final), UploadHead(s, c, r, true, drops), {}, {c});
  }

  // --- bytes, and the end of them -------------------------------------------------------------

  lemma BlockSteady(env: Env, s: Service, e: Event, drops: set<ConnId>)
    requires Inv(env, s) && Enabled(s, e) && e.Block? && Stirs(env, s, e)
    ensures Steady(s, Next(env, s, e, drops), {}, {})
  {
    var t := Written(s, e.c, e.data[..e.taken]);
    BlockSplits(s, e.c, e.data, e.taken, drops, t);
    assert Steady(s, t, {}, {});
    SteadyThenQuiet(s, t, Next(env, s, e, drops), {}, {});
  }

  lemma SettledSteady(s: Service, c: ConnId, conn: Conn, renames: bool)
    requires c in s.conns && conn.statuses == s.conns[c].statuses && conn.complete
    requires c in s.uploads && s.uploads[c].part in s.disk
    ensures Steady(s, Settle(s.(conns := s.conns[c := conn], uploads := s.uploads - {c}), s.uploads[c], renames), {}, {})
  {
  }

  lemma EndSteady(env: Env, s: Service, e: Event, drops: set<ConnId>)
    requires Inv(env, s) && Enabled(s, e) && e.BodyEnd? && Stirs(env, s, e)
    ensures Steady(s, Next(env, s, e, drops), {e.c}, {})
    ensures e.c in Next(env, s, e, drops).conns && Next(env, s, e, drops).conns[e.c].complete
  {
    var conn := s.conns[e.c].(complete := true);
    var v := Settle(s.(conns := s.conns[e.c := conn], uploads := s.uploads - {e.c}), s.uploads[e.c], e.renames);
    EndSplits(env, s, e, drops, v);
    SettledSteady(s, e.c, conn, e.renames);
    SteadyThenQuiet(s, v, Next(env, s, e, drops), {e.c}, {});
  }

  // --- any event that opens no session ----------------------------------------------------------

  /** The rows are replaced, and a session may begin. */
  predicate Replaces(s: Service, e: Event) {
    || (e.PrepareRequest? && Verdict(s, e.prepare) == 0)
    || (e.UserAccepts? && s.pending.Some? && e.folder.Some?)
  }

  /** Who begins to upload. */
  function Begun(env: Env, s: Service, e: Event): set<ConnId>
    requires Enabled(s, e)
  {
    if e.UploadHeaders? && Stirs(env, s, e) then {e.c} else {}
  }

  lemma NextSteady(env: Env, s: Service, e: Event, drops: set<ConnId>)
    requires Inv(env, s) && Enabled(s, e) && !Replaces(s, e)
    ensures Steady(s, Next(env, s, e, drops), Heard(env, s, e), Begun(env, s, e))
  {
    if !Stirs(env, s, e) {
      NextQuiet(env, s, e, drops);
      QuietSteady(s, Next(env, s, e, drops), Winners(s, e));
    } else {
      match e
      case UploadHeaders(c, r, _) => HeadSteady(env, s, c, r, drops);
      case Block(_, _, _) => BlockSteady(env, s, e, drops);
      case BodyEnd(_, _) => EndSteady(env, s, e, drops);
      case _ =>
    }
  }

  // --- one that may ---------------------------------------------------------------------------

  /** Nothing of an earlier session is left, and no row is done yet. */
  ghost predicate Afresh(s: Service, t: Service) {
    && t.uploads == map[]
    && (forall i :: 0 <= i < |t.files| ==> !IsDone(t.files[i]))
    && s.issued <= t.issued
    && (t.session == 0 || s.issued < t.session <= t.issued)
    && (t.pending.Some? ==> t.session == 0)
  }

  lemma AcceptAfresh(s: Service, folder: Option<Text>, drops: set<ConnId>)
    requires Parked(s)
    ensures Afresh(s, Accept(s, folder, drops)) && ConnsHeld(s.conns, Accept(s, folder, drops).conns, {s.pending.value})
    ensures Accept(s, folder, drops).pending.None?
  {
    AcceptConns(s, folder, drops);
  }

  lemma ParkedFrom(env: Env, s: Service, c: ConnId, p: Prepare, t: Service)
    requires Inv(env, s) && Enabled(s, PrepareRequest(c, p)) && Verdict(s, p) == 0
    requires t == s.(conns := s.conns[c := s.conns[c].(headSeen := true, complete := true)],
                     files := EntriesOf(p.files), state := State.Pending, pending := Bytes.Some(c))
    ensures Parked(t)
  {
    var conn := s.conns[c].(headSeen := true, complete := true);
    NotUploading(s, c);
    SeenKeeps(s, c, conn);
    assert t == s.(conns := s.conns[c := conn]).(files := t.files, state := t.state, pending := t.pending);
  }

  lemma PrepareAfresh(env: Env, s: Service, c: ConnId, p: Prepare, drops: set<ConnId>)
    requires Inv(env, s) && Enabled(s, PrepareRequest(c, p)) && Verdict(s, p) == 0
    ensures var t := PrepareUpload(s, c, p, drops);
            Afresh(s, t) && ConnsHeld(s.conns, t.conns, {c}) && (t.pending.Some? ==> t.pending.value == c)
  {
    var parked := s.(conns := s.conns[c := s.conns[c].(headSeen := true, complete := true)],
                     files := EntriesOf(p.files), state := State.Pending, pending := Bytes.Some(c));
    ParkedFrom(env, s, c, p, parked);
    AcceptAfresh(parked, p.folder, drops);
  }

  lemma NextAfresh(env: Env, s: Service, e: Event, drops: set<ConnId>)
    requires Inv(env, s) && Enabled(s, e) && Replaces(s, e)
    ensures var t := Next(env, s, e, drops);
            && Afresh(s, t) && ConnsHeld(s.conns, t.conns, Heard(env, s, e))
            && s.session == 0 && (t.pending.Some? ==> e.PrepareRequest? && t.pending.value == e.c)
  {
    match e
    case PrepareRequest(c, p) => PrepareAfresh(env, s, c, p, drops);
    case UserAccepts(folder) =>
      InvParked(env, s);
      AcceptAfresh(s, folder, drops);
  }
}
