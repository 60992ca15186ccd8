/** The event loop around the receive service: between any two events the object is in a state of the
    machine, and the invariant of the machine holds of it. */
module ReceiveLoop {
  import opened Transfers
  import opened Receive
  import opened ReceiveInvariant
  import opened ReceiveSafety
  import R = ReceiveService
  import Bytes

  /** A connection whose request is only now delivered is neither parked nor uploading. */
  lemma EventIsFresh(s: Service, e: Event)
    requires UploadsOk(s) && Enabled(s, e)
    ensures e.PrepareRequest? || e.UploadHeaders? || e.CancelRequest? || e.OtherRequest? ==> e.c !in s.uploads
    ensures e.PrepareRequest? || e.UploadHeaders? || e.CancelRequest? || e.OtherRequest? || e.BodyEnd? ==> s.pending != Bytes.Some(e.c)
  {
    if e.PrepareRequest? || e.UploadHeaders? || e.CancelRequest? || e.OtherRequest? {
      NotUploading(s, e.c);
    }
  }

  ghost predicate Ready(r: R.ReceiveService)
    reads r, r.transfer
  {
    r.Sound() && Inv(r.env, r.Snapshot())
  }

  /** Whatever happens next, the service does what the machine says, and is ready for more. */
  method Handle(r: R.ReceiveService, e: Event, drops: set<ConnId>)
    requires Ready(r) && Enabled(r.Snapshot(), e)
    modifies r, r.transfer
    ensures Ready(r) && r.Snapshot() == Next(r.env, old(r.Snapshot()), e, drops)
  {
    NextKeeps(r.env, r.Snapshot(), e, drops);
    EventIsFresh(r.Snapshot(), e);
    Dispatch(r, e, drops);
  }

  /** Each event has its slot. */
  method Dispatch(r: R.ReceiveService, e: Event, drops: set<ConnId>)
    requires r.Sound() && Enabled(r.Snapshot(), e)
    requires e.PrepareRequest? || e.UploadHeaders? || e.CancelRequest? || e.OtherRequest? ==> e.c !in r.uploads
    requires e.PrepareRequest? || e.UploadHeaders? || e.CancelRequest? || e.OtherRequest? || e.BodyEnd? ==>
               r.pending != Bytes.Some(e.c)
    modifies r, r.transfer
    ensures r.Sound() && r.Snapshot() == Next(r.env, old(r.Snapshot()), e, drops)
  {
    match e
    case Connected(c, address) => r.OnConnected(c, address);
    case PrepareRequest(c, p) => r.OnPrepareUpload(c, p, drops);
    case UploadHeaders(c, u, opens) => r.OnUploadHeaders(c, u, opens, drops);
    case Block(c, data, taken) => r.OnBlock(c, data, taken, drops);
    case BodyEnd(c, renames) => r.OnBodyEnd(c, renames, drops);
    case CancelRequest(c, session) => r.OnCancelRequest(c, session, drops);
    case OtherRequest(c, status) => r.OnOtherRequest(c, status, drops);
    case ConnTimeout(c) => r.OnConnTimeout(c, drops);
    case ConnClosed(c) => r.OnSocketGone(c, drops);
    case UserAccepts(folder) => r.Accept(folder, drops);
    case UserDeclines => r.Decline(drops);
    case UserCancels => r.Cancel(drops);
    case AcceptTimerFires => r.OnAcceptTimeout(drops);
    case IdleTimerFires => r.OnSessionIdle(drops);
    case StopListening => r.FinishSession(Stopped, drops);
  }
}
