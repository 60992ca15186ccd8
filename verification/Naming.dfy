/** File names: what is left of a name a peer chose, and the path it is written to. */
module Naming {
  import opened Transfers
  import Bytes

  const DOT: Unit := 0x2E
  const SLASH: Unit := 0x2F
  const BACKSLASH: Unit := 0x5C
  const UNDERSCORE: Unit := 0x5F
  const SPACE: Unit := 0x20
  const OPEN: Unit := 0x28
  const CLOSE: Unit := 0x29

  const PART: Text := [DOT, 0x70, 0x61, 0x72, 0x74]
  const RECEIVED_FILE: Text :=
    [0x72, 0x65, 0x63, 0x65, 0x69, 0x76, 0x65, 0x64, 0x2D, 0x66, 0x69, 0x6C, 0x65]
  const PROBE: Text :=
    [0x2E, 0x6C, 0x6F, 0x63, 0x61, 0x6C, 0x73, 0x65, 0x6E, 0x64, 0x2D, 0x77, 0x72, 0x69, 0x74, 0x65,
     0x2D, 0x74, 0x65, 0x73, 0x74]

  const MAX_NAME := 200

  // --- text from a peer ---------------------------------------------------------------

  /** Controls, bidirectional overrides and isolates, invisible characters, and angle brackets. */
  predicate Stripped(u: Unit) {
    || u < 0x20 || u == 0x7F || 0x80 <= u <= 0x9F
    || 0x202A <= u <= 0x202E || 0x2066 <= u <= 0x2069
    || u == 0x200B || u == 0x200C || u == 0x200D || u == 0xFEFF
    || u == 0x3C || u == 0x3E
  }

  predicate IsSpace(u: Unit) {
    || u == 0x20 || 9 <= u <= 13 || u == 0x85 || u == 0xA0 || u == 0x1680 || 0x2000 <= u <= 0x200A
    || u == 0x2028 || u == 0x2029 || u == 0x202F || u == 0x205F || u == 0x3000
  }

  function TrimLeft(t: Text): (r: Text)
    ensures |r| <= |t| && r == t[|t| - |r|..]
    ensures r != [] ==> !IsSpace(r[0])
  {
    if t != [] && IsSpace(t[0]) then TrimLeft(t[1..]) else t
  }

  function TrimRight(t: Text): (r: Text)
    ensures |r| <= |t| && r == t[..|r|]
    ensures r != [] ==> !IsSpace(r[|r| - 1])
  {
    if t != [] && IsSpace(t[|t| - 1]) then TrimRight(t[..|t| - 1]) else t
  }

  function Kept(t: Text): (r: Text)
    ensures |r| <= |t| && forall i :: 0 <= i < |r| ==> !Stripped(r[i])
  {
    if t == [] then []
    else Kept(t[..|t| - 1]) + if Stripped(t[|t| - 1]) then [] else [t[|t| - 1]]
  }

  function Prefix(t: Text, n: nat): Text {
    if |t| <= n then t else t[..n]
  }

  function SanitizeText(t: Text, maxLength: nat): (r: Text)
    ensures |r| <= maxLength && forall i :: 0 <= i < |r| ==> !Stripped(r[i])
    ensures r != [] ==> !IsSpace(r[0]) && !IsSpace(r[|r| - 1])
  {
    var left := TrimLeft(Prefix(Kept(t), maxLength));
    var r := TrimRight(left);
    assert r != [] ==> r[0] == left[0];
    r
  }

  lemma {:induction false} KeptClean(t: Text)
    requires forall i :: 0 <= i < |t| ==> !Stripped(t[i])
    ensures Kept(t) == t
  {
    if t != [] {
      KeptClean(t[..|t| - 1]);
      assert t == t[..|t| - 1] + [t[|t| - 1]];
    }
  }

  /** Text that is clean, short enough and trimmed is left alone, so filtering twice changes
      nothing. */
  lemma SanitizeAgain(t: Text, maxLength: nat)
    ensures SanitizeText(SanitizeText(t, maxLength), maxLength) == SanitizeText(t, maxLength)
  {
    KeptClean(SanitizeText(t, maxLength));
  }

  lemma KeptPrefix(t: Text, i: nat)
    requires i < |t|
    ensures Kept(t[..i + 1]) == Kept(t[..i]) + if Stripped(t[i]) then [] else [t[i]]
  {
    assert t[..i + 1][..i] == t[..i];
  }

  lemma {:induction false} KeptGrows(t: Text, i: nat)
    requires i <= |t|
    ensures |Kept(t[..i])| <= |Kept(t)| && Kept(t)[..|Kept(t[..i])|] == Kept(t[..i])
    decreases |t| - i
  {
    if i < |t| {
      KeptPrefix(t, i);
      KeptGrows(t, i + 1);
    } else {
      assert t[..i] == t;
    }
  }

  method Filter(t: Text, maxLength: nat) returns (clean: Text)
    ensures clean == Prefix(Kept(t), maxLength)
  {
    clean := [];
    var i := 0;
    while i < |t| && |clean| < maxLength
      invariant 0 <= i <= |t| && clean == Kept(t[..i]) && |clean| <= maxLength
    {
      KeptPrefix(t, i);
      if !Stripped(t[i]) {
        clean := clean + [t[i]];
      }
      i := i + 1;
    }
    KeptGrows(t, i);
    assert i == |t| ==> t[..i] == t;
  }

  method FilterText(t: Text, maxLength: nat) returns (r: Text)
    ensures r == SanitizeText(t, maxLength)
  {
    var clean := Filter(t, maxLength);
    r := TrimRight(TrimLeft(clean));
  }

  // --- the name of a file --------------------------------------------------------------

  /** Everything after the last slash. */
  function LastPart(t: Text): (r: Text)
    ensures |r| <= |t| && SLASH !in r
    ensures forall i :: 0 <= i < |r| ==> r[i] in t
  {
    if SLASH !in t then t else LastPart(t[1..])
  }

  function Underscored(t: Text): (r: Text)
    ensures |r| == |t|
    ensures forall i :: 0 <= i < |t| ==> r[i] == if t[i] == BACKSLASH || t[i] == SLASH then UNDERSCORE else t[i]
  {
    seq(|t|, i requires 0 <= i < |t| => if t[i] == BACKSLASH || t[i] == SLASH then UNDERSCORE else t[i])
  }

  predicate Plain(u: Unit) {
    !Stripped(u) && u != SLASH && u != BACKSLASH
  }

  predicate AllPlain(t: Text) {
    forall u :: u in t ==> Plain(u)
  }

  /** A name that stays where it is put: not empty, not a parent, no separator, nothing stripped. */
  predicate SafeName(t: Text) {
    t != [] && t != [DOT] && t != [DOT, DOT] && AllPlain(t)
  }

  lemma ReceivedFileSafe()
    ensures SafeName(RECEIVED_FILE) && |RECEIVED_FILE| <= MAX_NAME
  {
  }

  lemma UnderscoredPlain(t: Text)
    requires forall i :: 0 <= i < |t| ==> !Stripped(t[i])
    ensures AllPlain(Underscored(LastPart(t)))
  {
    var part := LastPart(t);
    var r := Underscored(part);
    forall u | u in r
      ensures Plain(u)
    {
      var i :| 0 <= i < |r| && r[i] == u;
      assert part[i] in t;
    }
  }

  /** The length is at most 200 already, so the branch of sanitizeFileName for longer names is
      never taken. */
  function SanitizeFileName(name: Text): (r: Text)
    ensures SafeName(r) && |r| <= MAX_NAME
  {
    ReceivedFileSafe();
    UnderscoredPlain(SanitizeText(name, MAX_NAME));
    var clean := Underscored(LastPart(SanitizeText(name, MAX_NAME)));
    if clean == [] || clean == [DOT] || clean == [DOT, DOT] then RECEIVED_FILE else clean
  }

  /** Position of the last dot, -1 when there is none. */
  function LastDot(t: Text): (i: int)
    ensures -1 <= i < |t|
    ensures i >= 0 ==> t[i] == DOT
  {
    if t == [] then -1
    else if t[|t| - 1] == DOT then |t| - 1
    else LastDot(t[..|t| - 1])
  }

  /** Stem and extension as the numbering splits them, at the last dot. A dot in front of the name
      does not count. */
  function Stem(t: Text): Text {
    var d := LastDot(t);
    if d < 0 then t else if d == 0 then t else t[..d]
  }

  function Extension(t: Text): Text {
    var d := LastDot(t);
    if d <= 0 then [] else t[d + 1..]
  }

  function Number(n: nat): Text {
    Bytes.Numeral(n, 10)
  }

  /** What follows the stem in the n-th name: " (n)" and the extension. */
  function Tail(extension: Text, n: nat): Text {
    [SPACE, OPEN] + Number(n) + [CLOSE] + if extension == [] then [] else [DOT] + extension
  }

  const TRIES := 999

  /** The names tried, in order: the clean one, then numbers 2 to 999. */
  function Name(clean: Text, k: nat): Text {
    if k == 0 then clean else Stem(clean) + Tail(Extension(clean), k + 1)
  }

  function Candidate(directory: Text, clean: Text, k: nat): Text {
    directory + [SLASH] + Name(clean, k)
  }

  function Candidates(directory: Text, clean: Text): (paths: seq<Text>)
    ensures |paths| == TRIES && forall k :: 0 <= k < TRIES ==> paths[k] == Candidate(directory, clean, k)
  {
    seq(TRIES, k requires 0 <= k < TRIES => Candidate(directory, clean, k))
  }

  /** Neither the path nor its part file exists. */
  predicate Free(existing: set<Text>, path: Text) {
    path !in existing && path + PART !in existing
  }

  function FirstFree(existing: set<Text>, paths: seq<Text>): (r: Bytes.Option<Text>)
    ensures match r
            case Some(path) => path in paths && Free(existing, path)
            case None => forall k :: 0 <= k < |paths| ==> !Free(existing, paths[k])
  {
    if paths == [] then Bytes.None
    else if Free(existing, paths[0]) then Bytes.Some(paths[0])
    else
      var r := FirstFree(existing, paths[1..]);
      assert paths == [paths[0]] + paths[1..];
      assert forall k :: 0 < k < |paths| ==> paths[k] == paths[1..][k - 1];
      r
  }

  function Reserve(existing: set<Text>, directory: Text, fileName: Text): (r: Bytes.Option<Text>) {
    FirstFree(existing, Candidates(directory, SanitizeFileName(fileName)))
  }

  method ReserveFilePath(existing: set<Text>, directory: Text, fileName: Text) returns (r: Bytes.Option<Text>)
    ensures r == Reserve(existing, directory, fileName)
  {
    var clean := SanitizeFileName(fileName);
    ghost var paths := Candidates(directory, clean);
    var candidate := directory + [SLASH] + clean;
    assert candidate == paths[0] && paths[0..] == paths;
    if Free(existing, candidate) {
      return Bytes.Some(candidate);
    }
    var base, suffix := Stem(clean), Extension(clean);
    for n := 2 to 1000
      invariant FirstFree(existing, paths[n - 1..]) == FirstFree(existing, paths)
    {
      var name := base + Tail(suffix, n);
      candidate := directory + [SLASH] + name;
      assert candidate == paths[n - 1] && paths[n - 1..][1..] == paths[n..];
      if Free(existing, candidate) {
        return Bytes.Some(candidate);
      }
    }
    return Bytes.None;
  }

  // --- what a reservation gives ---------------------------------------------------------

  /** `path` is a direct child of `directory`, by a name that cannot mean anything else. */
  predicate ChildOf(directory: Text, path: Text) {
    && |directory| + 1 < |path|
    && path[..|directory| + 1] == directory + [SLASH]
    && SafeName(path[|directory| + 1..])
  }

  lemma NumberPlain(n: nat)
    ensures AllPlain(Number(n))
  {
    var digits := Number(n);
    Bytes.NumeralRoundTrip(n, 10);
    forall u | u in digits
      ensures Plain(u)
    {
      var i :| 0 <= i < |digits| && digits[i] == u;
      assert 0 <= Bytes.DigitValue(digits[i]) < 10;
    }
  }

  lemma TailPlain(extension: Text, n: nat)
    requires AllPlain(extension)
    ensures AllPlain(Tail(extension, n)) && |Tail(extension, n)| > 2 && Tail(extension, n)[0] == SPACE
  {
    NumberPlain(n);
  }

  lemma {:induction false} PartsPlain(clean: Text)
    requires AllPlain(clean)
    ensures AllPlain(Stem(clean)) && AllPlain(Extension(clean))
  {
    var d := LastDot(clean);
    if d > 0 {
      assert clean == clean[..d + 1] + clean[d + 1..];
      assert clean == clean[..d] + clean[d..];
    }
  }

  lemma NameSafe(clean: Text, k: nat)
    requires SafeName(clean)
    ensures SafeName(Name(clean, k))
  {
    if k > 0 {
      var stem, tail := Stem(clean), Tail(Extension(clean), k + 1);
      PartsPlain(clean);
      TailPlain(Extension(clean), k + 1);
      assert (stem + tail)[|stem|] == SPACE;
    }
  }

  lemma CandidateIsChild(directory: Text, clean: Text, k: nat)
    requires SafeName(clean)
    ensures ChildOf(directory, Candidate(directory, clean, k))
  {
    NameSafe(clean, k);
    ChildJoin(directory, Name(clean, k));
  }

  lemma ChildJoin(directory: Text, name: Text)
    requires SafeName(name)
    ensures ChildOf(directory, directory + [SLASH] + name)
  {
    var path := directory + [SLASH] + name;
    assert path[..|directory| + 1] == directory + [SLASH];
    assert path[|directory| + 1..] == name;
  }

  /** A reserved path is a direct child of the folder, and neither it nor its part file exists. */
  lemma ReservedIsFresh(existing: set<Text>, directory: Text, fileName: Text)
    requires Reserve(existing, directory, fileName).Some?
    ensures var path := Reserve(existing, directory, fileName).value;
            Free(existing, path) && ChildOf(directory, path)
  {
    var clean := SanitizeFileName(fileName);
    var path := Reserve(existing, directory, fileName).value;
    var k :| 0 <= k < TRIES && Candidates(directory, clean)[k] == path;
    CandidateIsChild(directory, clean, k);
  }
}
