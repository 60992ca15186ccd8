/** Exactly which files of the download folder may be lost to the service. */
module ReceiveProbe {
  import opened Transfers
  import opened Receive
  import opened ReceiveInvariant
  import opened ReceiveSafety
  import opened ReceiveDisk
  import Bytes
  import Naming

  /** A number that no connection has. */
  lemma {:induction false} SomeFresh(used: set<nat>) returns (c: nat)
    ensures forall d :: d in used ==> d < c
    decreases |used|
  {
    if used == {} {
      c := 0;
    } else {
      var d :| d in used;
      var e := SomeFresh(used - {d});
      c := if d < e then e else d + 1;
      forall f | f in used
        ensures f < c
      {
        assert f == d || f in used - {d};
      }
    }
  }

  /** A request for one file that is accepted at once, into `directory`. */
  function QuickSave(directory: Text): Prepare {
    Prepare(true, true, true, true, [Descriptor([], [], 0, [])], true, false, true, Bytes.Some(directory))
  }

  // --- three events, one after another ---------------------------------------------------------

  /** Nothing is going on. */
  ghost predicate Rests(s: Service, c: ConnId) {
    s.session == 0 && s.pending.None? && c !in s.conns
  }

  lemma Stops(env: Env, s: Service, c: ConnId)
    requires Inv(env, s) && c !in s.conns
    ensures Enabled(s, StopListening) && Rests(Next(env, s, StopListening, {}), c)
  {
  }

  lemma ComesIn(env: Env, s: Service, c: ConnId)
    requires Rests(s, c)
    ensures Enabled(s, Connected(c, []))
    ensures var t := Next(env, s, Connected(c, []), {});
            t.session == 0 && t.pending.None? && Expects(t, c) && !t.conns[c].headSeen
  {
  }

  lemma Asks(env: Env, s: Service, c: ConnId, directory: Text)
    requires s.session == 0 && s.pending.None? && Expects(s, c) && !s.conns[c].headSeen
    ensures Enabled(s, PrepareRequest(c, QuickSave(directory)))
    ensures ProbePath(directory) !in Next(env, s, PrepareRequest(c, QuickSave(directory)), {}).disk
  {
    assert Verdict(s, QuickSave(directory)) == 0;
  }

  lemma ThreeTurns(env: Env, s: Service, a: Turn, b: Turn, c: Turn)
    ensures RunAll(env, s, [a, b, c]) == Take(env, Take(env, Take(env, s, a), b), c)
  {
    assert [a, b, c][1..] == [b, c] && [b, c][1..] == [c] && [c][1..] == [];
    assert RunAll(env, s, [a, b, c]) == RunAll(env, Take(env, s, a), [b, c]);
    assert RunAll(env, Take(env, s, a), [b, c]) == RunAll(env, Take(env, Take(env, s, a), b), [c]);
  }

  /** The service is stopped, and somebody sends a file to the folder. */
  function Script(c: ConnId, directory: Text): seq<Turn> {
    [(StopListening, {}), (Connected(c, []), {}), (PrepareRequest(c, QuickSave(directory)), {})]
  }

  /** From any state, a file called like the probe can be lost in three events. */
  lemma ProbeIsLost(env: Env, s: Service, directory: Text) returns (turns: seq<Turn>)
    requires Inv(env, s)
    ensures ProbePath(directory) !in RunAll(env, s, turns).disk
  {
    var c := SomeFresh(s.conns.Keys);
    assert c !in s.conns;
    turns := Script(c, directory);
    Stops(env, s, c);
    var t := Next(env, s, StopListening, {});
    ComesIn(env, t, c);
    Asks(env, Next(env, t, Connected(c, []), {}), c, directory);
    ThreeTurns(env, s, turns[0], turns[1], turns[2]);
  }

  lemma FolderOf(p: Text) returns (directory: Text)
    requires ProbeNamed(p)
    ensures p == ProbePath(directory)
  {
    var tail := [Naming.SLASH] + Naming.PROBE;
    directory := p[..|p| - |tail|];
    assert directory + [Naming.SLASH] + Naming.PROBE == directory + tail;
  }

  ghost predicate Untouched(env: Env, s: Service, p: Text, turns: seq<Turn>)
    requires p in s.disk
  {
    var t := RunAll(env, s, turns);
    p in t.disk && t.disk[p] == s.disk[p]
  }

  /** A file that nobody is writing keeps its contents through every run, with any number of sessions,
      uploads, failures and endings, if and only if it is not called like the write probe. */
  lemma SparedExactly(env: Env, s: Service, p: Text)
    requires Inv(env, s) && p in s.disk && p !in PartsOf(s.uploads)
    ensures (forall turns: seq<Turn> :: Untouched(env, s, p, turns)) <==> !ProbeNamed(p)
  {
    if ProbeNamed(p) {
      var directory := FolderOf(p);
      var turns := ProbeIsLost(env, s, directory);
      assert !Untouched(env, s, p, turns);
    } else {
      forall turns: seq<Turn>
        ensures Untouched(env, s, p, turns)
      {
        RunSpares(env, s, turns, p);
      }
    }
  }
}
