/** The subnet sweep: every other address of our own networks is probed once on each transport, a
    window at a time. */
module Sweep {
  import opened Transfers
  import Bytes
  import Naming
  import NamingExhausted

  const SCAN_WINDOW := 24
  const DOT: Unit := 0x2E

  datatype Target = Target(secure: bool, address: Text)

  // --- what is probed ---------------------------------------------------------------------

  function LastDot(t: Text): (i: int)
    ensures -1 <= i < |t|
    ensures i >= 0 ==> t[i] == DOT
  {
    if t == [] then -1 else if t[|t| - 1] == DOT then |t| - 1 else LastDot(t[..|t| - 1])
  }

  /** The networks we are on, up to and including the last dot, none twice. */
  function Prefixes(mine: seq<Text>): (r: seq<Text>) {
    if mine == [] then []
    else
      var earlier, own := Prefixes(mine[..|mine| - 1]), mine[|mine| - 1];
      if LastDot(own) <= 0 || own[..LastDot(own) + 1] in earlier then earlier
      else earlier + [own[..LastDot(own) + 1]]
  }

  function Address(prefix: Text, host: nat): Text {
    prefix + Naming.Number(host)
  }

  function Both(address: Text): seq<Target> {
    [Target(true, address), Target(false, address)]
  }

  /** The hosts below `host` of one network, without our own addresses. */
  function HostTargets(mine: seq<Text>, prefix: Text, host: nat): (r: seq<Target>) {
    if host <= 1 then []
    else
      HostTargets(mine, prefix, host - 1)
      + if Address(prefix, host - 1) in mine then [] else Both(Address(prefix, host - 1))
  }

  const HOSTS := 255

  function Targets(mine: seq<Text>, prefixes: seq<Text>): (r: seq<Target>) {
    if prefixes == [] then []
    else
      var n := |prefixes| - 1;
      Targets(mine, prefixes[..n]) + HostTargets(mine, prefixes[n], HOSTS)
  }

  ghost predicate Distinct<T>(s: seq<T>) {
    forall i, j :: 0 <= i < j < |s| ==> s[i] != s[j]
  }

  // --- each once ------------------------------------------------------------------------------

  ghost predicate EndsInDot(prefix: Text) {
    prefix != [] && prefix[|prefix| - 1] == DOT
  }

  lemma {:induction false} PrefixesDistinct(mine: seq<Text>)
    ensures Distinct(Prefixes(mine))
    ensures forall p :: p in Prefixes(mine) ==> EndsInDot(p)
  {
    if mine != [] {
      PrefixesDistinct(mine[..|mine| - 1]);
    }
  }

  lemma NoDotInside(host: nat)
    ensures DOT !in Naming.Number(host)
  {
    var digits := Naming.Number(host);
    Bytes.NumeralRoundTrip(host, 10);
    forall i | 0 <= i < |digits|
      ensures digits[i] != DOT
    {
      assert 0 <= Bytes.DigitValue(digits[i]) < 10;
    }
  }

  lemma {:induction false} LastDotIs(prefix: Text, rest: Text)
    requires EndsInDot(prefix) && DOT !in rest
    ensures LastDot(prefix + rest) == |prefix| - 1
    decreases |rest|
  {
    if rest == [] {
      assert prefix + rest == prefix;
    } else {
      assert (prefix + rest)[..|prefix + rest| - 1] == prefix + rest[..|rest| - 1];
      LastDotIs(prefix, rest[..|rest| - 1]);
    }
  }

  /** An address says which network it is from and which host it is. */
  lemma AddressesApart(p: Text, i: nat, q: Text, j: nat)
    requires EndsInDot(p) && EndsInDot(q) && Address(p, i) == Address(q, j)
    ensures p == q && i == j
  {
    NoDotInside(i);
    NoDotInside(j);
    LastDotIs(p, Naming.Number(i));
    LastDotIs(q, Naming.Number(j));
    assert p == Address(p, i)[..|p|] && q == Address(q, j)[..|q|];
    assert Naming.Number(i) == Address(p, i)[|p|..] && Naming.Number(j) == Address(q, j)[|q|..];
    NamingExhausted.NumbersApart(i, j);
  }

  /** A target that is probed: some host of some network that is not ourselves. */
  ghost predicate Wanted(mine: seq<Text>, prefix: Text, host: nat, t: Target) {
    exists h :: 1 <= h < host && t.address == Address(prefix, h) && t.address !in mine
  }

  lemma {:induction false} HostTargetsAre(mine: seq<Text>, prefix: Text, host: nat)
    requires EndsInDot(prefix)
    ensures forall t :: t in HostTargets(mine, prefix, host) <==> Wanted(mine, prefix, host, t)
    ensures Distinct(HostTargets(mine, prefix, host))
    decreases host
  {
    if host > 1 {
      HostTargetsAre(mine, prefix, host - 1);
      var earlier, all, address := HostTargets(mine, prefix, host - 1), HostTargets(mine, prefix, host), Address(prefix, host - 1);
      forall t
        ensures t in all <==> Wanted(mine, prefix, host, t)
      {
        assert t in all <==> t in earlier || (address !in mine && t.address == address);
        if t in earlier { assert Wanted(mine, prefix, host - 1, t); }
        if Wanted(mine, prefix, host, t) {
          var h :| 1 <= h < host && t.address == Address(prefix, h) && t.address !in mine;
          if h < host - 1 { assert Wanted(mine, prefix, host - 1, t); }
        }
      }
      forall t | t in earlier
        ensures t.address != address
      {
        assert Wanted(mine, prefix, host - 1, t);
        var h :| 1 <= h < host - 1 && t.address == Address(prefix, h) && t.address !in mine;
        if t.address == address { AddressesApart(prefix, h, prefix, host - 1); }
      }
    }
  }

  ghost predicate WantedIn(mine: seq<Text>, prefixes: seq<Text>, t: Target) {
    exists p :: p in prefixes && Wanted(mine, p, HOSTS, t)
  }

  /** The targets are both transports of every host from 1 to 254 of every network of ours but
      ourselves, and no target comes twice. */
  lemma {:induction false} TargetsAre(mine: seq<Text>, prefixes: seq<Text>)
    requires Distinct(prefixes) && forall p :: p in prefixes ==> EndsInDot(p)
    ensures forall t :: t in Targets(mine, prefixes) <==> WantedIn(mine, prefixes, t)
    ensures Distinct(Targets(mine, prefixes))
  {
    if prefixes != [] {
      var n := |prefixes| - 1;
      var fewer, last := prefixes[..n], prefixes[n];
      TargetsAre(mine, fewer);
      HostTargetsAre(mine, last, HOSTS);
      forall t
        ensures t in Targets(mine, prefixes) <==> WantedIn(mine, prefixes, t)
      {
        if WantedIn(mine, prefixes, t) {
          var p :| p in prefixes && Wanted(mine, p, HOSTS, t);
          if p != last { assert p in fewer && WantedIn(mine, fewer, t); }
        }
        if WantedIn(mine, fewer, t) {
          var p :| p in fewer && Wanted(mine, p, HOSTS, t);
          assert p in prefixes;
        }
      }
      forall t | t in Targets(mine, fewer)
        ensures t !in HostTargets(mine, last, HOSTS)
      {
        Elsewhere(mine, fewer, last, t);
      }
      DistinctJoin(Targets(mine, fewer), HostTargets(mine, last, HOSTS));
    }
  }

  lemma DistinctJoin<T>(a: seq<T>, b: seq<T>)
    requires Distinct(a) && Distinct(b) && forall x :: x in a ==> x !in b
    ensures Distinct(a + b)
  {
    forall i, j | 0 <= i < j < |a + b|
      ensures (a + b)[i] != (a + b)[j]
    {
      if i < |a| <= j { assert a[i] in a && b[j - |a|] in b; }
    }
  }

  lemma Elsewhere(mine: seq<Text>, fewer: seq<Text>, last: Text, t: Target)
    requires last !in fewer && EndsInDot(last) && (forall p :: p in fewer ==> EndsInDot(p)) && WantedIn(mine, fewer, t)
    ensures !Wanted(mine, last, HOSTS, t)
  {
    var p :| p in fewer && Wanted(mine, p, HOSTS, t);
    if Wanted(mine, last, HOSTS, t) {
      var h :| 1 <= h < HOSTS && t.address == Address(p, h) && t.address !in mine;
      var k :| 1 <= k < HOSTS && t.address == Address(last, k) && t.address !in mine;
      AddressesApart(p, h, last, k);
    }
  }

  // --- the window ------------------------------------------------------------------------------

  /** `probed` is every target a probe was sent to since the sweep began. */
  datatype Scan = Scan(scanning: bool, queue: seq<Target>, total: nat, done: nat, inFlight: nat, probed: seq<Target>)

  const IDLE := Scan(false, [], 0, 0, 0, [])

  function Finish(s: Scan): Scan {
    s.(scanning := false, total := 0, done := 0)
  }

  function Pump(s: Scan): (r: Scan)
    decreases |s.queue|
  {
    if s.scanning && s.inFlight < SCAN_WINDOW && s.queue != [] then
      Pump(s.(queue := s.queue[1..], inFlight := s.inFlight + 1, probed := s.probed + [s.queue[0]]))
    else if s.scanning && s.queue == [] && s.inFlight == 0 then Finish(s)
    else s
  }

  function StartOver(s: Scan, mine: seq<Text>): Scan {
    if s.scanning then s
    else
      var targets := Targets(mine, Prefixes(mine));
      if targets == [] then s.(queue := [])
      else Pump(Scan(true, targets, |targets|, 0, 0, []))
  }

  function Settle(s: Scan): Scan
    requires s.inFlight > 0
  {
    Pump(s.(inFlight := s.inFlight - 1, done := s.done + 1))
  }

  function Cancel(s: Scan): Scan {
    if !s.scanning then s
    else
      var t := s.(queue := []);
      if t.inFlight == 0 then Finish(t) else t
  }

  datatype Event = ScanSubnet(mine: seq<Text>) | ReplyFinished | CancelScan

  predicate Enabled(s: Scan, e: Event) {
    e.ReplyFinished? ==> s.inFlight > 0
  }

  function Next(s: Scan, e: Event): Scan
    requires Enabled(s, e)
  {
    match e
    case ScanSubnet(mine) => StartOver(s, mine)
    case ReplyFinished => Settle(s)
    case CancelScan => Cancel(s)
  }

  function RunAll(s: Scan, events: seq<Event>): Scan
    decreases |events|
  {
    if events == [] then s else RunAll(if Enabled(s, events[0]) then Next(s, events[0]) else s, events[1..])
  }

  /** Between events: a sweep that goes on has a probe out, and a full window as long as anything is
      queued; one that does not has none. */
  ghost predicate Inv(s: Scan) {
    && s.inFlight <= SCAN_WINDOW
    && (!s.scanning ==> s.inFlight == 0 && s.queue == [])
    && (s.scanning ==> s.inFlight > 0 && (s.queue != [] ==> s.inFlight == SCAN_WINDOW))
    && (s.scanning ==> |s.probed| == s.done + s.inFlight && |s.queue| + s.inFlight + s.done <= s.total)
  }

  /** The sweep of `targets` is going on or over, and was not cancelled. */
  ghost predicate Covers(s: Scan, targets: seq<Target>) {
    && s.probed + s.queue == targets
    && (s.scanning ==> |s.queue| + s.inFlight + s.done == s.total == |targets|)
  }

  lemma {:induction false} PumpKeeps(s: Scan, targets: seq<Target>)
    requires s.scanning && s.inFlight <= SCAN_WINDOW && |s.probed| == s.done + s.inFlight
    requires |s.queue| + s.inFlight + s.done <= s.total
    ensures Inv(Pump(s)) && (Covers(s, targets) ==> Covers(Pump(s), targets))
    ensures s.probed <= Pump(s).probed && (s.queue == [] ==> Pump(s).probed == s.probed)
    decreases |s.queue|
  {
    if s.inFlight < SCAN_WINDOW && s.queue != [] {
      var t := s.(queue := s.queue[1..], inFlight := s.inFlight + 1, probed := s.probed + [s.queue[0]]);
      assert t.probed + t.queue == s.probed + s.queue;
      PumpKeeps(t, targets);
    }
  }

  lemma NextKeeps(s: Scan, e: Event)
    requires Inv(s) && Enabled(s, e)
    ensures Inv(Next(s, e))
  {
    match e
    case ScanSubnet(mine) =>
      var targets := Targets(mine, Prefixes(mine));
      if !s.scanning { PumpKeeps(Scan(true, targets, |targets|, 0, 0, []), targets); }
    case ReplyFinished => PumpKeeps(s.(inFlight := s.inFlight - 1, done := s.done + 1), []);
    case CancelScan =>
  }

  lemma {:induction false} RunKeeps(s: Scan, events: seq<Event>)
    requires Inv(s)
    ensures Inv(RunAll(s, events))
    decreases |events|
  {
    if events != [] {
      if Enabled(s, events[0]) { NextKeeps(s, events[0]); }
      RunKeeps(if Enabled(s, events[0]) then Next(s, events[0]) else s, events[1..]);
    }
  }

  /** `n` replies, one after another. */
  function Replies(n: nat): (r: seq<Event>)
    ensures |r| == n
  {
    seq(n, i => ReplyFinished)
  }

  /** Without a cancel a sweep goes on until every probe has been answered, and then it is over with
      every target probed. */
  lemma {:induction false} SettlesInTime(s: Scan, targets: seq<Target>, n: nat)
    requires Inv(s) && s.scanning && Covers(s, targets) && n <= |s.queue| + s.inFlight
    ensures var t := RunAll(s, Replies(n));
            && Inv(t) && Covers(t, targets)
            && (t.scanning <==> n < |s.queue| + s.inFlight)
            && (n == |s.queue| + s.inFlight ==> t.probed == targets)
    decreases n
  {
    if n > 0 {
      var t := Next(s, ReplyFinished);
      var settled := s.(inFlight := s.inFlight - 1, done := s.done + 1);
      PumpKeeps(settled, targets);
      PumpCounts(settled);
      assert Replies(n)[1..] == Replies(n - 1);
      if n < |s.queue| + s.inFlight || t.scanning {
        SettlesInTime(t, targets, n - 1);
      }
    }
  }

  /** Sending a probe moves a target, it does not lose one. */
  lemma {:induction false} PumpCounts(s: Scan)
    requires s.scanning
    ensures |Pump(s).queue| + Pump(s).inFlight == |s.queue| + s.inFlight
    ensures Pump(s).scanning <==> |s.queue| + s.inFlight > 0
    decreases |s.queue|
  {
    if s.inFlight < SCAN_WINDOW && s.queue != [] {
      PumpCounts(s.(queue := s.queue[1..], inFlight := s.inFlight + 1, probed := s.probed + [s.queue[0]]));
    }
  }

  /** A whole sweep: it ends after as many replies as there are targets, not before, and each target
      was probed exactly once. */
  lemma WholeSweep(s: Scan, mine: seq<Text>)
    requires Inv(s) && !s.scanning && Targets(mine, Prefixes(mine)) != []
    ensures var targets := Targets(mine, Prefixes(mine));
            var t := RunAll(StartOver(s, mine), Replies(|targets|));
            && !t.scanning && t.inFlight == 0 && t.probed == targets && Distinct(t.probed)
            && (forall n: nat :: n < |targets| ==> RunAll(StartOver(s, mine), Replies(n)).scanning)
  {
    var prefixes := Prefixes(mine);
    var targets := Targets(mine, prefixes);
    PrefixesDistinct(mine);
    TargetsAre(mine, prefixes);
    var full := Scan(true, targets, |targets|, 0, 0, []);
    PumpKeeps(full, targets);
    PumpCounts(full);
    SettlesInTime(StartOver(s, mine), targets, |targets|);
    forall n: nat | n < |targets|
      ensures RunAll(StartOver(s, mine), Replies(n)).scanning
    {
      SettlesInTime(StartOver(s, mine), targets, n);
    }
  }

  /** Cancelled at any point, a sweep sends no further probe and ends with the last one that is out. */
  lemma {:induction false} CancelledSweep(s: Scan, n: nat)
    requires Inv(s) && s.scanning && n <= s.inFlight
    ensures var t := RunAll(Cancel(s), Replies(n));
            && t.probed == s.probed && t.queue == [] && t.inFlight == s.inFlight - n
            && (t.scanning <==> n < s.inFlight)
    decreases n
  {
    DrainsTo(Cancel(s), n);
  }

  lemma {:induction false} DrainsTo(s: Scan, n: nat)
    requires Inv(s) && s.scanning && s.queue == [] && n <= s.inFlight
    ensures var t := RunAll(s, Replies(n));
            && t.probed == s.probed && t.queue == [] && t.inFlight == s.inFlight - n
            && (t.scanning <==> n < s.inFlight)
    decreases n
  {
    if n > 0 {
      assert Replies(n)[1..] == Replies(n - 1);
      var t := Next(s, ReplyFinished);
      if t.scanning {
        DrainsTo(t, n - 1);
      }
    }
  }

  // --- any run ----------------------------------------------------------------------------------------

  /** A sweep with what it set out to probe, and whether it was cancelled on the way. */
  datatype Course = Course(scan: Scan, targets: seq<Target>, cancelled: bool)

  const START := Course(IDLE, [], false)

  function Advance(r: Course, e: Event): Course {
    if !Enabled(r.scan, e) then r
    else
      var s := Next(r.scan, e);
      match e
      case ScanSubnet(mine) =>
        if r.scan.scanning || Targets(mine, Prefixes(mine)) == [] then r.(scan := s)
        else Course(s, Targets(mine, Prefixes(mine)), false)
      case ReplyFinished => r.(scan := s)
      case CancelScan => r.(scan := s, cancelled := r.cancelled || r.scan.scanning)
  }

  function Courses(r: Course, events: seq<Event>): Course
    decreases |events|
  {
    if events == [] then r else Courses(Advance(r, events[0]), events[1..])
  }

  /** Nothing is probed that was not set out for, nor twice; nothing is lost before a cancel, and
      nothing goes out after it. */
  ghost predicate OnCourse(r: Course) {
    && Inv(r.scan)
    && Distinct(r.targets)
    && r.scan.probed <= r.targets
    && (!r.cancelled ==> Covers(r.scan, r.targets))
    && (r.cancelled ==> r.scan.queue == [])
  }

  lemma StartsOnCourse(r: Course, mine: seq<Text>)
    requires OnCourse(r)
    ensures OnCourse(Advance(r, ScanSubnet(mine)))
  {
    var targets := Targets(mine, Prefixes(mine));
    PrefixesDistinct(mine);
    TargetsAre(mine, Prefixes(mine));
    if !r.scan.scanning && targets != [] {
      var full := Scan(true, targets, |targets|, 0, 0, []);
      assert full.probed + full.queue == targets;
      PumpKeeps(full, targets);
    }
  }

  lemma RepliesOnCourse(r: Course)
    requires OnCourse(r) && r.scan.inFlight > 0
    ensures OnCourse(Advance(r, ReplyFinished))
  {
    PumpKeeps(r.scan.(inFlight := r.scan.inFlight - 1, done := r.scan.done + 1), r.targets);
  }

  lemma AdvanceKeeps(r: Course, e: Event)
    requires OnCourse(r)
    ensures OnCourse(Advance(r, e))
  {
    if Enabled(r.scan, e) {
      match e
      case ScanSubnet(mine) => StartsOnCourse(r, mine);
      case ReplyFinished => RepliesOnCourse(r);
      case CancelScan =>
    }
  }

  lemma {:induction false} CoursesKeep(r: Course, events: seq<Event>)
    requires OnCourse(r)
    ensures OnCourse(Courses(r, events))
    decreases |events|
  {
    if events != [] {
      AdvanceKeeps(r, events[0]);
      CoursesKeep(Advance(r, events[0]), events[1..]);
    }
  }

  /** Over every run of scans, replies and cancels: no target of a sweep is probed twice, and none that
      it did not set out for; until it is cancelled, queued, in flight and done make up the total, and
      when it is over, every target was probed; once it is cancelled nothing is queued any more. */
  lemma EveryRun(events: seq<Event>)
    ensures var r := Courses(START, events);
            var s := r.scan;
            && s == RunAll(IDLE, events) && s.inFlight <= SCAN_WINDOW
            && Distinct(s.probed) && s.probed <= r.targets
            && (s.scanning && !r.cancelled ==> |s.queue| + s.inFlight + s.done == s.total == |r.targets|)
            && (!s.scanning && !r.cancelled ==> s.probed == r.targets)
            && (r.cancelled ==> s.queue == [])
  {
    CoursesKeep(START, events);
    SameScan(START, events);
    var r := Courses(START, events);
    if !r.scan.scanning && !r.cancelled { assert r.scan.probed + [] == r.scan.probed; }
  }

  lemma {:induction false} SameScan(r: Course, events: seq<Event>)
    ensures Courses(r, events).scan == RunAll(r.scan, events)
    decreases |events|
  {
    if events != [] {
      SameScan(Advance(r, events[0]), events[1..]);
    }
  }

  // --- the object -----------------------------------------------------------------------------------

  class Sweeper {
    var queue: seq<Target>
    var total: nat
    var done: nat
    var inFlight: nat
    var scanning: bool
    var probed: seq<Target>

    ghost function Snapshot(): Scan
      reads this
    {
      Scan(scanning, queue, total, done, inFlight, probed)
    }

    constructor ()
      ensures Snapshot() == IDLE
    {
      queue, total, done, inFlight, scanning, probed := [], 0, 0, 0, false, [];
    }

    method FindPrefixes(mine: seq<Text>) returns (prefixes: seq<Text>)
      ensures prefixes == Prefixes(mine)
    {
      prefixes := [];
      for i := 0 to |mine|
        invariant prefixes == Prefixes(mine[..i])
      {
        assert mine[..i + 1][..i] == mine[..i];
        var lastDot := FindLastDot(mine[i]);
        if lastDot <= 0 {
          continue;
        }
        var prefix := mine[i][..lastDot + 1];
        if prefix !in prefixes {
          prefixes := prefixes + [prefix];
        }
      }
      assert mine[..|mine|] == mine;
    }

    method FindLastDot(t: Text) returns (i: int)
      ensures i == LastDot(t)
    {
      i := |t| - 1;
      assert t[..i + 1] == t;
      while i >= 0 && t[i] != DOT
        invariant -1 <= i < |t|
        invariant LastDot(t) == LastDot(t[..i + 1])
      {
        assert t[..i + 1][..i] == t[..i];
        i := i - 1;
      }
    }

    method OnScanSubnet(mine: seq<Text>)
      modifies this
      ensures Snapshot() == StartOver(old(Snapshot()), mine)
    {
      if scanning {
        return;
      }
      queue := [];
      var prefixes := FindPrefixes(mine);
      for p := 0 to |prefixes|
        invariant queue == Targets(mine, prefixes[..p])
        invariant Snapshot() == old(Snapshot()).(queue := queue)
      {
        assert prefixes[..p + 1][..p] == prefixes[..p];
        ghost var before := queue;
        for host := 1 to HOSTS
          invariant queue == before + HostTargets(mine, prefixes[p], host)
          invariant Snapshot() == old(Snapshot()).(queue := queue)
        {
          var address := Address(prefixes[p], host);
          if address in mine {
            continue;
          }
          queue := queue + [Target(true, address)];
          queue := queue + [Target(false, address)];
        }
      }
      assert prefixes[..|prefixes|] == prefixes;
      if |queue| == 0 {
        return;
      }
      total, done, inFlight, scanning, probed := |queue|, 0, 0, true, [];
      PumpScanQueue();
    }

    method PumpScanQueue()
      modifies this
      ensures Snapshot() == Pump(old(Snapshot()))
    {
      while scanning && inFlight < SCAN_WINDOW && |queue| > 0
        invariant Pump(Snapshot()) == Pump(old(Snapshot()))
        decreases |queue|
      {
        var target := queue[0];
        queue := queue[1..];
        probed := probed + [target];
        inFlight := inFlight + 1;
      }
      if scanning && |queue| == 0 && inFlight == 0 {
        FinishScan();
      }
    }

    method OnScanReplyFinished()
      requires inFlight > 0
      modifies this
      ensures Snapshot() == Settle(old(Snapshot()))
    {
      inFlight := inFlight - 1;
      done := done + 1;
      PumpScanQueue();
    }

    method OnCancelScan()
      modifies this
      ensures Snapshot() == Cancel(old(Snapshot()))
    {
      if !scanning {
        return;
      }
      queue := [];
      if inFlight == 0 {
        FinishScan();
      }
    }

    method FinishScan()
      modifies this
      ensures Snapshot() == Finish(old(Snapshot()))
    {
      scanning, total, done := false, 0, 0;
    }
  }
}
