/** Whether a parked request is ever answered. */
module ReceiveAnswers {
  import opened Transfers
  import opened Receive
  import opened ReceiveInvariant
  import Bytes

  lemma AnsweredNow(s: Service, p: ConnId, status: int, drops: set<ConnId>)
    requires p in s.conns
    ensures Reply(s, p, status, drops).conns[p].answered
  {
  }

  lemma ReleasedByAnswer(s: Service, drops: set<ConnId>, p: ConnId)
    requires s.pending == Bytes.Some(p) && p in s.conns && s.session == 0
    ensures Decline(s, drops).conns[p].answered && UserCancel(s, drops).conns[p].answered
    ensures FinishSession(s, Stopped, drops).conns[p].answered
  {
  }

  lemma TakenBack(s: Service, c: ConnId, session: Secret, drops: set<ConnId>, p: ConnId)
    requires s.pending == Bytes.Some(p) && p in s.conns && s.session == 0 && c in s.conns && c != p
    ensures PeerCancel(s, c, session, drops).conns.Keys == s.conns.Keys
    ensures PeerCancel(s, c, session, drops).conns[p].answered == s.conns[p].answered
  {
  }

  lemma AcceptAnswers(s: Service, folder: Option<Text>, drops: set<ConnId>, p: ConnId)
    requires s.pending == Bytes.Some(p) && p in s.conns
    ensures Accept(s, folder, drops).conns[p].answered
  {
  }

  lemma GoneIsAnswered(s: Service, p: ConnId, drops: set<ConnId>)
    requires s.pending == Bytes.Some(p) && p in s.conns && s.conns[p].open
    ensures SocketGone(s, p, drops).conns[p].answered
  {
  }

  lemma TimeoutAnswers(s: Service, p: ConnId, drops: set<ConnId>)
    requires s.pending == Bytes.Some(p) && p in s.conns && !s.conns[p].answered
    ensures Respond(s, p, 408, drops).conns[p].answered
  {
    AnsweredNow(s, p, 408, drops);
    var t := Reply(s, p, 408, drops);
    assert t.pending == Bytes.Some(p);
    assert Respond(s, p, 408, drops).conns == t.conns;
  }

  /** While a request is parked there is no session, so other requests leave it parked. */
  lemma StaysParked(env: Env, s: Service, e: Event, drops: set<ConnId>)
    requires Inv(env, s) && Enabled(s, e) && s.pending.Some?
    requires e.Connected? || e.PrepareRequest? || e.UploadHeaders? || e.Block? || e.BodyEnd? || e.OtherRequest? || e.IdleTimerFires?
    ensures Next(env, s, e, drops).pending == s.pending
  {
  }

  lemma SocketsApart(s: Service, c: ConnId, drops: set<ConnId>)
    requires s.pending.Some? && c != s.pending.value && s.uploads == map[]
    ensures SocketGone(s, c, drops).pending == s.pending && Respond(s, c, 408, drops).pending == s.pending
  {
  }

  /** A parked request that is let go has been answered, or its socket is gone; unless the peer took
      it back, which lets it go without a word. */
  lemma ParkedIsAnswered(env: Env, s: Service, e: Event, drops: set<ConnId>, p: ConnId)
    requires Inv(env, s) && Enabled(s, e) && s.pending == Bytes.Some(p) && !s.conns[p].answered
    requires Next(env, s, e, drops).pending.None?
    ensures p in Next(env, s, e, drops).conns
    ensures Next(env, s, e, drops).conns[p].answered <==> !e.CancelRequest?
  {
    match e
    case ConnTimeout(c) =>
      TimeoutAnswers(s, p, drops);
      if c != p { SocketsApart(s, c, drops); }
    case ConnClosed(c) =>
      if c == p { GoneIsAnswered(s, p, drops); } else { SocketsApart(s, c, drops); }
    case UserAccepts(folder) => AcceptAnswers(s, folder, drops, p);
    case CancelRequest(c, session) => TakenBack(s, c, session, drops, p);
    case UserDeclines => ReleasedByAnswer(s, drops, p);
    case UserCancels => ReleasedByAnswer(s, drops, p);
    case AcceptTimerFires => ReleasedByAnswer(s, drops, p);
    case StopListening => ReleasedByAnswer(s, drops, p);
    case _ => StaysParked(env, s, e, drops);
  }
}
