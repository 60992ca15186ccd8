/** What every run of the sending side keeps, as long as a PIN is only entered when one was asked
    for. */
module SendInvariant {
  import opened Transfers
  import opened Send
  import Bytes

  /** Waiting for the reply to prepare-upload. */
  ghost predicate Asking(s: Sender) {
    s.busy && !s.uploading && s.reply.Some? && s.flight == map[s.reply.value := Prepare(OffersOf(s.files))]
  }

  /** Waiting for somebody to enter a PIN. */
  ghost predicate AwaitingPin(s: Sender) {
    s.busy && !s.uploading && s.flight == map[] && s.reply.None?
  }

  /** Waiting for the reply to the upload of the current row; everything before it is settled. */
  ghost predicate Uploading(s: Sender) {
    && s.busy && s.uploading && s.session != 0 && s.state.Active?
    && 0 <= s.currentRow < |s.files|
    && s.reply.Some? && s.flight == map[s.reply.value := UploadOf(s, s.currentRow)]
    && s.files[s.currentRow].status == FileTransferring
    && (forall i :: 0 <= i < s.currentRow ==> Settled(s.files[i]))
    && (forall i :: s.currentRow < i < |s.files| ==> !s.files[i].status.FileTransferring?)
  }

  ghost predicate AtRest(s: Sender) {
    !s.busy && s.flight == map[] && s.reply.None? && (s.uploading ==> AllSettled(s.files))
  }

  ghost predicate AllWaiting(files: seq<FileEntry>) {
    forall i :: 0 <= i < |files| ==> files[i].status == FileWaiting
  }

  /** Every run that became busy and is over was reported over once. */
  predicate ReportedOnce(s: Sender) {
    s.begun == s.ended + (if s.busy then 1 else 0)
  }

  ghost predicate Inv(s: Sender) {
    && (Asking(s) || AwaitingPin(s) || Uploading(s) || AtRest(s))
    && (s.busy ==> !s.cancelled)
    && (s.busy && !s.uploading ==> AllWaiting(s.files) && s.files != [] && s.session == 0)
    && ReportedOnce(s)
    && (s.reply.Some? ==> s.reply.value < s.issued)
  }

  lemma InitialInv()
    ensures Inv(IDLE)
  {
  }

  /** A PIN is entered only while one is awaited. */
  ghost predicate Polite(s: Sender, e: Event) {
    e.UserEntersPin? && !e.empty && s.busy ==> s.flight == map[]
  }

  // --- starting the next file --------------------------------------------------------------

  /** Between two files: everything up to the current row is settled and nothing is in flight. */
  ghost predicate Between(s: Sender) {
    && s.busy && s.uploading && !s.cancelled && s.session != 0 && s.state.Active?
    && s.flight == map[] && s.reply.None?
    && -1 <= s.currentRow < |s.files|
    && (forall i :: 0 <= i <= s.currentRow ==> Settled(s.files[i]))
    && (forall i :: s.currentRow < i < |s.files| ==> !s.files[i].status.FileTransferring?)
    && s.begun == s.ended + 1
  }

  lemma {:induction false} StartKeeps(s: Sender, opens: set<nat>)
    requires Between(s)
    ensures Inv(StartNextFile(s, opens))
    decreases |s.files| - s.currentRow
  {
    var row := NextWaiting(s.files, s.currentRow + 1);
    assert forall i :: s.currentRow < i < row ==> Settled(s.files[i]);
    if row == |s.files| {
      assert AllSettled(s.files);
    } else if row !in opens {
      StartKeeps(s.(currentRow := row, files := WithStatus(s.files, row, FileFailed)), opens);
    }
  }

  // --- events ---------------------------------------------------------------------------------

  lemma {:induction false} EntriesWaiting(sources: seq<Source>, n: nat)
    requires n <= |sources|
    ensures AllWaiting(EntriesOf(sources, n))
  {
    if n > 0 {
      EntriesWaiting(sources, n - 1);
    }
  }

  lemma FailKeeps(s: Sender)
    requires s.busy && s.flight == map[] && s.reply.None? && s.begun == s.ended + 1
    requires forall i :: 0 <= i < |s.files| ==> !s.files[i].status.FileTransferring?
    ensures Inv(Fail(s))
  {
    var t := Fail(s);
    forall i | 0 <= i < |t.files|
      ensures Settled(t.files[i])
    {
      assert t.files[i] == SkipWaiting(s.files[i]);
    }
  }

  lemma GrantKeeps(s: Sender, g: Grant, opens: set<nat>)
    requires s.busy && !s.cancelled && s.flight == map[] && s.reply.None? && s.begun == s.ended + 1
    requires AllWaiting(s.files) && s.files != [] && g.session != 0
    ensures Inv(StartNextFile(s.(session := g.session, files := GrantAll(s.files, g), state := State.Active,
                                 currentRow := -1, uploading := true), opens))
  {
    StartKeeps(s.(session := g.session, files := GrantAll(s.files, g), state := State.Active,
                  currentRow := -1, uploading := true), opens);
  }

  /** A handshake that came to nothing. */
  lemma OverKeeps(s: Sender, files: seq<FileEntry>, session: Secret, state: State)
    requires s.busy && !s.uploading && s.flight == map[] && s.reply.None? && s.begun == s.ended + 1
    ensures Inv(EndQuietly(s.(files := files, session := session), state))
  {
  }

  lemma PrepareKeeps(s: Sender, e: Event)
    requires Inv(s) && Enabled(s, e) && e.PrepareAnswered?
    ensures Inv(Next(s, e))
  {
    assert Asking(s);
    var t := Taken(s, e.id);
    assert t.flight == map[];
    assert t.reply.None?;
    FailKeeps(t);
    OverKeeps(t, t.files, t.session, State.Finished);
    OverKeeps(t, t.files, t.session, State.Cancelled);
    if e.grant.Some? {
      var g := e.grant.value;
      FailKeeps(t.(session := g.session));
      OverKeeps(t, GrantAll(t.files, g), g.session, State.Finished);
      if g.session != 0 {
        GrantKeeps(t, g, e.opens);
      }
    }
  }

  lemma UploadKeeps(s: Sender, e: Event)
    requires Inv(s) && Enabled(s, e) && e.UploadAnswered?
    ensures Inv(Next(s, e))
  {
    assert Uploading(s);
    var t := Taken(s, e.id);
    assert t.flight == map[];
    var done := t.(files := WithStatus(t.files, t.currentRow, FileDone));
    var failed := t.(files := WithStatus(t.files, t.currentRow, FileFailed));
    assert Between(done) && Between(failed);
    if Success(e.status, e.error) {
      StartKeeps(done, e.opens);
    } else if e.status == 409 {
      FailKeeps(failed);
    } else {
      StartKeeps(failed, e.opens);
    }
  }

  lemma ProgressKeeps(s: Sender, e: Event)
    requires Inv(s) && Enabled(s, e) && e.Progress?
    ensures Inv(Next(s, e))
  {
    assert Uploading(s);
    var t := Next(s, e);
    assert forall i :: 0 <= i < |s.files| ==> t.files[i].status == s.files[i].status;
  }

  lemma CancelKeeps(s: Sender)
    requires Inv(s)
    ensures Inv(Cancel(s))
  {
    if s.busy {
      var t := Cancel(s);
      assert t.flight == map[];
      if Uploading(s) {
        forall i | 0 <= i < |t.files|
          ensures Settled(t.files[i])
        {
          assert t.files[i] == SkipUnfinished(s.files[i]);
        }
      }
    }
  }

  lemma SomethingOut(s: Sender)
    requires Asking(s) || Uploading(s)
    ensures s.flight != map[]
  {
    assert s.reply.value in s.flight;
  }

  lemma NothingOut(s: Sender)
    requires Inv(s) && s.busy && s.flight == map[]
    ensures AwaitingPin(s)
  {
    if Asking(s) || Uploading(s) {
      SomethingOut(s);
    }
  }

  lemma NextKeeps(s: Sender, e: Event)
    requires Inv(s) && Enabled(s, e) && Polite(s, e)
    ensures Inv(Next(s, e))
  {
    match e
    case UserSends(reachable, blocked, sources) =>
      EntriesWaiting(sources, |sources|);
      if !s.busy { assert forall r :: s.flight[s.issued := r] == map[s.issued := r]; }
    case UserEntersPin(empty) =>
      if s.busy && !empty {
        assert s.flight == map[];
        NothingOut(s);
        assert forall r :: s.flight[s.issued := r] == map[s.issued := r];
      }
    case UserCancels => CancelKeeps(s);
    case PrepareAnswered(_, _, _, _) => PrepareKeeps(s, e);
    case UploadAnswered(_, _, _, _) => UploadKeeps(s, e);
    case Progress(_, _) => ProgressKeeps(s, e);
  }

  ghost predicate AllPolite(s: Sender, events: seq<Event>)
    decreases |events|
  {
    events != [] ==> Polite(s, events[0]) && AllPolite(Take(s, events[0]), events[1..])
  }

  lemma {:induction false} RunKeeps(s: Sender, events: seq<Event>)
    requires Inv(s) && AllPolite(s, events)
    ensures Inv(RunAll(s, events))
    decreases |events|
  {
    if events != [] {
      if Enabled(s, events[0]) {
        NextKeeps(s, events[0]);
      }
      RunKeeps(Take(s, events[0]), events[1..]);
    }
  }

  /** From the start, whatever the receiver answers, whenever the user cancels: every run that began
      and is over was reported over exactly once; at most one request is out; no row up to the
      current one is waiting; and once uploading had begun a run leaves every row settled. */
  lemma EveryRun(events: seq<Event>)
    requires AllPolite(IDLE, events)
    ensures var s := RunAll(IDLE, events);
            && ReportedOnce(s)
            && |s.flight| <= 1 && (s.flight != map[] ==> s.busy)
            && (s.busy && s.uploading ==> forall i :: 0 <= i <= s.currentRow < |s.files| ==> !s.files[i].status.FileWaiting?)
            && (!s.busy && s.uploading ==> AllSettled(s.files))
  {
    InitialInv();
    RunKeeps(IDLE, events);
  }

  // --- exactly ----------------------------------------------------------------------------------

  /** Two answers, one after the other. */
  lemma TwoAnswers(s: Sender, a: Event, b: Event)
    requires !a.UserEntersPin? && !b.UserEntersPin?
    ensures AllPolite(s, [a, b]) && RunAll(s, [a, b]) == Take(Take(s, a), b)
  {
    OneMore(s, a, [b]);
    OneMore(Take(s, a), b, []);
    assert [a, b][1..] == [b] && [b][1..] == [];
  }

  /** The handshake that the PIN sends out is declined, which ends the run. */
  lemma SecondDeclined(s: Sender, t: Sender, u: Sender)
    requires s.busy && !s.cancelled && ReportedOnce(s) && s.issued !in s.flight && t == SubmitPin(s, false)
    requires u == Take(t, PrepareAnswered(s.issued, 403, Bytes.None, {}))
    ensures !u.busy && !u.cancelled && u.begun == u.ended && u.flight == s.flight
  {
  }

  /** And the request that was out before ends it again. */
  lemma FirstAnswered(s: Sender, id: ReplyId, e: Event)
    requires !s.busy && !s.cancelled && s.begun == s.ended && id in s.flight
    requires e == if s.flight[id].Prepare? then PrepareAnswered(id, 403, Bytes.None, {}) else UploadAnswered(id, 409, true, {})
    ensures !ReportedOnce(Take(s, e))
  {
  }

  lemma PinEndsTwice(s: Sender) returns (events: seq<Event>)
    requires Inv(s) && s.busy && s.flight != map[]
    ensures AllPolite(SubmitPin(s, false), events) && !ReportedOnce(RunAll(SubmitPin(s, false), events))
  {
    var id := s.reply.value;
    var t := SubmitPin(s, false);
    var a := PrepareAnswered(s.issued, 403, Bytes.None, {});
    var b := if s.flight[id].Prepare? then PrepareAnswered(id, 403, Bytes.None, {}) else UploadAnswered(id, 409, true, {});
    events := [a, b];
    SecondDeclined(s, t, Take(t, a));
    FirstAnswered(Take(t, a), id, b);
    TwoAnswers(t, a, b);
  }

  /** In every run that follows a PIN, however the requests are answered, each run of the service is
      reported over exactly once, if and only if no request was out when the PIN was entered. */
  lemma PinNeedsQuiet(s: Sender)
    requires Inv(s) && s.busy
    ensures (forall events: seq<Event> :: AllPolite(SubmitPin(s, false), events) ==> ReportedOnce(RunAll(SubmitPin(s, false), events)))
            <==> s.flight == map[]
  {
    var t := SubmitPin(s, false);
    if s.flight == map[] {
      NextKeeps(s, UserEntersPin(false));
      forall events: seq<Event> | AllPolite(t, events)
        ensures ReportedOnce(RunAll(t, events))
      {
        RunKeeps(t, events);
      }
    } else {
      var events := PinEndsTwice(s);
    }
  }

  /** Without that courtesy it fails: two PINs in a row put two handshakes in flight, and being
      declined twice reports one run over twice. */
  lemma TwoPinsEndTwice(source: Source)
    requires source.readable
    ensures var events := [UserSends(true, false, [source]), PrepareAnswered(0, 401, Bytes.None, {}),
                           UserEntersPin(false), UserEntersPin(false),
                           PrepareAnswered(1, 403, Bytes.None, {}), PrepareAnswered(2, 403, Bytes.None, {})];
            var s := RunAll(IDLE, events);
            s.begun == 1 && s.ended == 2
  {
    var entries := EntriesOf([source], 1);
    assert entries != [];
    var ask := Request.Prepare(OffersOf(entries));
    var sent := Take(IDLE, UserSends(true, false, [source]));
    assert sent.flight == map[0 := ask] && sent.issued == 1 && sent.busy;
    var asked := Take(sent, PrepareAnswered(0, 401, Bytes.None, {}));
    assert asked.flight == map[];
    var one := Take(asked, UserEntersPin(false));
    var two := Take(one, UserEntersPin(false));
    assert two.flight == map[1 := ask, 2 := ask];
    var declined := Take(two, PrepareAnswered(1, 403, Bytes.None, {}));
    assert declined.flight == map[2 := ask] && declined.ended == 1;
    var again := Take(declined, PrepareAnswered(2, 403, Bytes.None, {}));
    assert again.ended == 2;
    SixEvents(IDLE, UserSends(true, false, [source]), PrepareAnswered(0, 401, Bytes.None, {}),
              UserEntersPin(false), UserEntersPin(false),
              PrepareAnswered(1, 403, Bytes.None, {}), PrepareAnswered(2, 403, Bytes.None, {}));
  }

  lemma SixEvents(s: Sender, a: Event, b: Event, c: Event, d: Event, e: Event, f: Event)
    ensures RunAll(s, [a, b, c, d, e, f]) == Take(Take(Take(Take(Take(Take(s, a), b), c), d), e), f)
  {
    OneMore(s, a, [b, c, d, e, f]);
    OneMore(Take(s, a), b, [c, d, e, f]);
    OneMore(Take(Take(s, a), b), c, [d, e, f]);
    OneMore(Take(Take(Take(s, a), b), c), d, [e, f]);
    OneMore(Take(Take(Take(Take(s, a), b), c), d), e, [f]);
    OneMore(Take(Take(Take(Take(Take(s, a), b), c), d), e), f, []);
  }

  lemma OneMore(s: Sender, e: Event, rest: seq<Event>)
    ensures RunAll(s, [e] + rest) == RunAll(Take(s, e), rest)
  {
    assert ([e] + rest)[1..] == rest;
  }
}
