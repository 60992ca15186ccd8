/** Whose name a received file gets, and which of them can be the write probe's. */
module ReceiveNames {
  import opened Transfers
  import opened Receive
  import opened ReceiveInvariant
  import opened ReceiveSafety
  import opened ReceiveRows
  import RF = ReceiveFrame
  import RD = ReceiveDisk
  import Bytes
  import Naming

  // --- names that could be the probe's --------------------------------------------------------

  /** A file that would be called like the write probe. */
  predicate LikeProbe(fileName: Text) {
    Naming.SanitizeFileName(fileName) == Naming.PROBE
  }

  lemma ProbeLetters()
    ensures Naming.SPACE !in Naming.PROBE && Naming.SLASH !in Naming.PROBE
  {
  }

  lemma {:induction false} LastPartIs(directory: Text, name: Text)
    requires Naming.SLASH !in name
    ensures Naming.LastPart(directory + [Naming.SLASH] + name) == name
    decreases |directory|
  {
    var path := directory + [Naming.SLASH] + name;
    assert path[|directory|] == Naming.SLASH;
    if directory == [] {
      assert path[1..] == name;
    } else {
      assert path[1..] == directory[1..] + [Naming.SLASH] + name;
      LastPartIs(directory[1..], name);
    }
  }

  /** The last component of a path decides. */
  lemma ProbeNamedJoin(directory: Text, name: Text)
    requires Naming.SLASH !in name && RD.ProbeNamed(directory + [Naming.SLASH] + name)
    ensures name == Naming.PROBE
  {
    var path, tail := directory + [Naming.SLASH] + name, [Naming.SLASH] + Naming.PROBE;
    var above := path[..|path| - |tail|];
    assert path == above + [Naming.SLASH] + Naming.PROBE;
    ProbeLetters();
    LastPartIs(directory, name);
    LastPartIs(above, Naming.PROBE);
  }

  /** A numbered name has a blank in it, which the probe's has not. */
  lemma NumberedHasBlank(clean: Text, k: nat)
    requires k > 0
    ensures Naming.SPACE in Naming.Name(clean, k)
  {
    var stem, tail := Naming.Stem(clean), Naming.Tail(Naming.Extension(clean), k + 1);
    assert (stem + tail)[|stem|] == Naming.SPACE;
  }

  lemma NumberedNotProbe(clean: Text, k: nat)
    requires Naming.Name(clean, k) == Naming.PROBE
    ensures clean == Naming.PROBE
  {
    ProbeLetters();
    if k > 0 { NumberedHasBlank(clean, k); }
  }

  /** Only a file that is called like the probe is put where the probe would be. */
  lemma ReservedProbe(existing: set<Text>, directory: Text, fileName: Text)
    requires Naming.Reserve(existing, directory, fileName).Some?
    requires RD.ProbeNamed(Naming.Reserve(existing, directory, fileName).value)
    ensures LikeProbe(fileName)
  {
    var clean, path := Naming.SanitizeFileName(fileName), Naming.Reserve(existing, directory, fileName).value;
    var k :| 0 <= k < Naming.TRIES && Naming.Candidates(directory, clean)[k] == path;
    Naming.NameSafe(clean, k);
    NoSlash(Naming.Name(clean, k));
    ProbeNamedJoin(directory, Naming.Name(clean, k));
    NumberedNotProbe(clean, k);
  }

  lemma NoSlash(name: Text)
    requires Naming.SafeName(name)
    ensures Naming.SLASH !in name
  {
  }

  lemma ProbeEnding(path: Text)
    requires RD.ProbeNamed(path)
    ensures |path| >= 5 && path[|path| - 5] != Naming.DOT
  {
    var tail := [Naming.SLASH] + Naming.PROBE;
    assert path[|path| - |tail|..][|tail| - 5] == tail[|tail| - 5];
  }

  lemma PartNotProbe(final: Text)
    ensures !RD.ProbeNamed(final + Naming.PART)
  {
    var path := final + Naming.PART;
    assert path[|path| - 5] == Naming.DOT;
    if RD.ProbeNamed(path) { ProbeEnding(path); }
  }

  // --- the rows keep their names --------------------------------------------------------------

  /** An upload goes to a path that is the probe's only if its row is called so. */
  predicate Named(u: Upload, files: seq<FileEntry>) {
    RD.ProbeNamed(u.final) ==> u.row < |files| && LikeProbe(files[u.row].fileName)
  }

  ghost predicate AllNamed(s: Service) {
    forall c :: c in s.uploads ==> Named(s.uploads[c], s.files)
  }

  ghost predicate SameNames(a: seq<FileEntry>, b: seq<FileEntry>) {
    |a| == |b| && forall j :: 0 <= j < |a| ==> b[j].id == a[j].id && b[j].fileName == a[j].fileName
  }

  ghost predicate UploadKept(s: Service, t: Service, c: ConnId)
    requires c in t.uploads
  {
    c in s.uploads && t.uploads[c].row == s.uploads[c].row && t.uploads[c].final == s.uploads[c].final
  }

  /** The rows are called what they were, and so are the files of all uploads that go on. */
  ghost predicate NamesStay(s: Service, t: Service) {
    && SameNames(s.files, t.files)
    && (forall c :: c in t.uploads ==> UploadKept(s, t, c) || Named(t.uploads[c], t.files))
  }

  lemma NamesTwice(s: Service, t: Service, u: Service)
    requires NamesStay(s, t) && NamesStay(t, u)
    ensures NamesStay(s, u)
  {
    forall j | 0 <= j < |u.files|
      ensures u.files[j].id == s.files[j].id && u.files[j].fileName == s.files[j].fileName
    {
      assert t.files[j].id == s.files[j].id;
    }
    forall c | c in u.uploads
      ensures UploadKept(s, u, c) || Named(u.uploads[c], u.files)
    {
      if UploadKept(t, u, c) && !UploadKept(s, t, c) {
        assert Named(t.uploads[c], t.files);
      }
    }
  }

  lemma StillNamed(s: Service, t: Service)
    requires AllNamed(s) && NamesStay(s, t)
    ensures AllNamed(t)
  {
    forall c | c in t.uploads
      ensures Named(t.uploads[c], t.files)
    {
      if UploadKept(s, t, c) { assert Named(s.uploads[c], s.files); }
    }
  }

  lemma QuietNames(s: Service, t: Service, x: set<ConnId>)
    requires Quiet(s, t, x)
    ensures NamesStay(s, t)
  {
    forall j: nat | j < |t.files|
      ensures t.files[j].id == s.files[j].id && t.files[j].fileName == s.files[j].fileName
    {
      assert RowHeld(s, t, j);
    }
    forall c | c in t.uploads
      ensures UploadKept(s, t, c)
    {
      assert UploadHeld(s, t, c);
    }
  }

  lemma OpenedNames(s: Service, c: ConnId, row: nat, final: Text)
    requires c in s.conns && row < |s.files|
    requires RD.ProbeNamed(final) ==> LikeProbe(s.files[row].fileName)
    ensures NamesStay(s, OpenUpload(s, c, row, final))
  {
    var t := OpenUpload(s, c, row, final);
    assert t.files[row].fileName == s.files[row].fileName;
  }

  lemma SeenNames(s: Service, c: ConnId)
    requires c in s.conns
    ensures NamesStay(s, HeadSeen(s, c))
  {
  }

  lemma OpenedThen(s: Service, c: ConnId, row: nat, final: Text, t: Service)
    requires c in s.conns && row < |s.files|
    requires RD.ProbeNamed(final) ==> LikeProbe(s.files[row].fileName)
    requires Quiet(OpenUpload(HeadSeen(s, c), c, row, final), t, {})
    ensures NamesStay(s, t)
  {
    var u := OpenUpload(HeadSeen(s, c), c, row, final);
    SeenNames(s, c);
    OpenedNames(HeadSeen(s, c), c, row, final);
    NamesTwice(s, HeadSeen(s, c), u);
    QuietNames(u, t, {});
    NamesTwice(s, u, t);
  }

  lemma HeadNames(env: Env, s: Service, c: ConnId, r: UploadRequest, drops: set<ConnId>)
    requires Inv(env, s) && Enabled(s, UploadHeaders(c, r, true)) && Opens(s, c, r)
    ensures NamesStay(s, UploadHead(s, c, r, true, drops))
  {
    var row, final := RF.HeadOpens(env, s, c, r, drops);
    if RD.ProbeNamed(final) { ReservedProbe(s.disk.Keys, s.directory, s.files[row].fileName); }
    OpenedThen(s, c, row, final, UploadHead(s, c, r, true, drops));
  }

  lemma WrittenNames(s: Service, c: ConnId, data: seq<Byte>)
    requires c in s.conns && s.conns[c].sink.Some?
    ensures NamesStay(s, Written(s, c, data))
  {
  }

  lemma BlockNames(env: Env, s: Service, e: Event, drops: set<ConnId>)
    requires UploadsOk(s) && Enabled(s, e) && e.Block? && Stirs(env, s, e)
    ensures NamesStay(s, Next(env, s, e, drops))
  {
    var t := Written(s, e.c, e.data[..e.taken]);
    BlockSplits(s, e.c, e.data, e.taken, drops, t);
    WrittenNames(s, e.c, e.data[..e.taken]);
    QuietNames(t, Next(env, s, e, drops), {});
    NamesTwice(s, t, Next(env, s, e, drops));
  }

  lemma SettledNames(s: Service, c: ConnId, conn: Conn, renames: bool)
    requires c in s.conns && c in s.uploads && s.uploads[c].part in s.disk
    ensures NamesStay(s, Settle(s.(conns := s.conns[c := conn], uploads := s.uploads - {c}), s.uploads[c], renames))
  {
  }

  lemma EndNames(env: Env, s: Service, e: Event, drops: set<ConnId>)
    requires Enabled(s, e) && e.BodyEnd? && Stirs(env, s, e)
    ensures NamesStay(s, Next(env, s, e, drops))
  {
    var conn := s.conns[e.c].(complete := true);
    var v := Settle(s.(conns := s.conns[e.c := conn], uploads := s.uploads - {e.c}), s.uploads[e.c], e.renames);
    EndSplits(env, s, e, drops, v);
    SettledNames(s, e.c, conn, e.renames);
    QuietNames(v, Next(env, s, e, drops), {e.c});
    NamesTwice(s, v, Next(env, s, e, drops));
  }

  /** Until the rows are replaced, they are called what they were, and every new upload of one of them
      gets a path of that name. */
  lemma NextNames(env: Env, s: Service, e: Event, drops: set<ConnId>)
    requires Inv(env, s) && Enabled(s, e) && !RF.Replaces(s, e)
    ensures NamesStay(s, Next(env, s, e, drops))
  {
    if !Stirs(env, s, e) {
      NextQuiet(env, s, e, drops);
      QuietNames(s, Next(env, s, e, drops), Winners(s, e));
    } else {
      match e
      case UploadHeaders(c, r, _) => HeadNames(env, s, c, r, drops);
      case Block(_, _, _) => BlockNames(env, s, e, drops);
      case BodyEnd(_, _) => EndNames(env, s, e, drops);
      case _ =>
    }
  }

  // --- the names of new rows --------------------------------------------------------------------

  /** Where the rows come from when they are replaced: the request, or the request that was parked. */
  lemma NewNames(env: Env, s: Service, e: Event, drops: set<ConnId>)
    requires Inv(env, s) && Enabled(s, e) && RF.Replaces(s, e)
    ensures var t := Next(env, s, e, drops);
            && AllNamed(t)
            && SameNames(if e.PrepareRequest? then EntriesOf(e.prepare.files) else s.files, t.files)
  {
    RF.NextAfresh(env, s, e, drops);
  }
}
