/** When a reservation gives up, the folder really is that full: each file in it stands in the way
    of at most one candidate. */
module NamingExhausted {
  import opened Transfers
  import opened Naming
  import Bytes
  import Sets

  lemma NumberLength(n: nat)
    requires 2 <= n < 1000
    ensures 1 <= |Number(n)| <= 3
  {
    assert |Number(n / 10 / 10)| == 1;
    assert |Number(n / 10)| <= 2;
  }

  lemma NumbersApart(m: nat, n: nat)
    requires Number(m) == Number(n)
    ensures m == n
  {
    Bytes.NumeralRoundTrip(m, 10);
    Bytes.NumeralRoundTrip(n, 10);
  }

  /** What stands after the stem in the clean name: nothing, or a dot and the rest. */
  lemma CleanTail(clean: Text)
    ensures var stem := Stem(clean);
            |stem| <= |clean| && clean[..|stem|] == stem && (|stem| < |clean| ==> clean[|stem|] == DOT)
            && |clean| == |stem| + (if Extension(clean) == [] then if |stem| < |clean| then 1 else 0 else 1 + |Extension(clean)|)
  {
  }

  /** After a common stem, texts are equal when what follows is. */
  lemma StripStem(stem: Text, a: Text, b: Text)
    requires stem + a == stem + b
    ensures a == b
  {
    assert (stem + a)[|stem|..] == a;
    assert (stem + b)[|stem|..] == b;
  }

  lemma TailsApart(extension: Text, m: nat, n: nat)
    requires 2 <= m < 1000 && 2 <= n < 1000
    ensures Tail(extension, m) == Tail(extension, n) ==> m == n
    ensures |Tail(extension, m)| < |Tail(extension, n)| + |PART|
  {
    NumberLength(m);
    NumberLength(n);
    var a, b := Tail(extension, m), Tail(extension, n);
    if a == b {
      assert |Number(m)| == |Number(n)|;
      assert a[2..2 + |Number(m)|] == Number(m) && b[2..2 + |Number(n)|] == Number(n);
      NumbersApart(m, n);
    }
  }

  lemma NumberedAndClean(clean: Text, k: nat)
    requires 0 < k < TRIES
    ensures Name(clean, k) != clean && Name(clean, k) != clean + PART && clean != Name(clean, k) + PART
  {
    NumberLength(k + 1);
    CleanTail(clean);
    var stem, tail := Stem(clean), Tail(Extension(clean), k + 1);
    assert (stem + tail)[|stem|] == SPACE;
    assert (clean + PART)[|stem|] == DOT;
    assert |tail| > |clean| - |stem|;
  }

  /** No two candidates are the same, and none is the part file of another. */
  lemma NamesApart(clean: Text, i: nat, j: nat)
    requires i < TRIES && j < TRIES && i != j
    ensures Name(clean, i) != Name(clean, j) && Name(clean, i) != Name(clean, j) + PART
  {
    if i == 0 {
      NumberedAndClean(clean, j);
    } else if j == 0 {
      NumberedAndClean(clean, i);
    } else {
      var stem, a, b := Stem(clean), Tail(Extension(clean), i + 1), Tail(Extension(clean), j + 1);
      TailsApart(Extension(clean), i + 1, j + 1);
      JoinedApart(stem, a, b);
    }
  }

  lemma JoinedApart(stem: Text, a: Text, b: Text)
    requires a != b && |a| < |b| + |PART|
    ensures stem + a != stem + b && stem + a != stem + b + PART
  {
    if stem + a == stem + b {
      StripStem(stem, a, b);
    }
  }

  /** The file that stands in the way of the k-th candidate. */
  function Blocker(existing: set<Text>, directory: Text, clean: Text, k: nat): Text {
    var path := Candidate(directory, clean, k);
    if path in existing then path else path + PART
  }

  lemma BlockersApart(existing: set<Text>, directory: Text, clean: Text, i: nat, j: nat)
    requires i < TRIES && j < TRIES && i != j
    ensures Blocker(existing, directory, clean, i) != Blocker(existing, directory, clean, j)
  {
    var x, y := Name(clean, i), Name(clean, j);
    NamesApart(clean, i, j);
    NamesApart(clean, j, i);
    var prefix := directory + [SLASH];
    assert prefix + x + PART == prefix + (x + PART) && prefix + y + PART == prefix + (y + PART);
    if Blocker(existing, directory, clean, i) == Blocker(existing, directory, clean, j) {
      var a := if prefix + x in existing then x else x + PART;
      var b := if prefix + y in existing then y else y + PART;
      StripStem(prefix, a, b);
      PartEnds(x, y);
    }
  }

  lemma PartEnds(x: Text, y: Text)
    ensures x + PART == y + PART ==> x == y
  {
    if x + PART == y + PART {
      assert (x + PART)[..|x|] == x && (y + PART)[..|y|] == y;
    }
  }

  lemma PartSafe(name: Text)
    requires SafeName(name)
    ensures SafeName(name + PART)
  {
  }

  /** The part file of a path in the folder is in the folder. */
  lemma PartInside(directory: Text, name: Text)
    ensures directory + [SLASH] + name + PART == directory + [SLASH] + (name + PART)
  {
  }

  lemma PartIsChild(directory: Text, name: Text)
    requires SafeName(name)
    ensures ChildOf(directory, directory + [SLASH] + name + PART)
  {
    PartSafe(name);
    ChildJoin(directory, name + PART);
    PartInside(directory, name);
  }

  lemma BlockerIsChild(existing: set<Text>, directory: Text, clean: Text, k: nat)
    requires SafeName(clean)
    ensures ChildOf(directory, Blocker(existing, directory, clean, k))
  {
    NameSafe(clean, k);
    CandidateIsChild(directory, clean, k);
    PartIsChild(directory, Name(clean, k));
  }

  function Children(existing: set<Text>, directory: Text): set<Text> {
    set p | p in existing && ChildOf(directory, p)
  }

  ghost predicate BlocksOne(existing: set<Text>, directory: Text, clean: Text, n: nat, p: Text) {
    exists k :: 0 <= k < n && p == Blocker(existing, directory, clean, k)
  }

  lemma NextBlockerIsNew(existing: set<Text>, directory: Text, clean: Text, n: nat)
    requires n < TRIES
    ensures !BlocksOne(existing, directory, clean, n, Blocker(existing, directory, clean, n))
  {
    forall k | 0 <= k < n
      ensures Blocker(existing, directory, clean, k) != Blocker(existing, directory, clean, n)
    {
      BlockersApart(existing, directory, clean, k, n);
    }
  }

  lemma BlockerExists(existing: set<Text>, directory: Text, clean: Text, k: nat)
    requires SafeName(clean) && !Free(existing, Candidate(directory, clean, k))
    ensures Blocker(existing, directory, clean, k) in Children(existing, directory)
  {
    BlockerIsChild(existing, directory, clean, k);
  }

  /** What blocks one of the first ones blocks one of a few more. */
  lemma BlocksMore(existing: set<Text>, directory: Text, clean: Text, n: nat, p: Text)
    requires BlocksOne(existing, directory, clean, n, p)
    ensures BlocksOne(existing, directory, clean, n + 1, p)
  {
  }

  /** One more candidate that is taken, one more file that takes it. */
  lemma OneMoreBlocker(existing: set<Text>, directory: Text, clean: Text, n: nat, rest: set<Text>) returns (found: set<Text>)
    requires n < TRIES && Blocker(existing, directory, clean, n) in Children(existing, directory)
    requires |rest| == n && rest <= Children(existing, directory)
    requires forall p :: p in rest ==> BlocksOne(existing, directory, clean, n, p)
    ensures |found| == n + 1 && found <= Children(existing, directory)
    ensures forall p :: p in found ==> BlocksOne(existing, directory, clean, n + 1, p)
  {
    var last := Blocker(existing, directory, clean, n);
    NextBlockerIsNew(existing, directory, clean, n);
    found := rest + {last};
    forall p | p in found
      ensures BlocksOne(existing, directory, clean, n + 1, p)
    {
      if p in rest { BlocksMore(existing, directory, clean, n, p); }
    }
  }

  lemma {:induction false} ManyBlockers(existing: set<Text>, directory: Text, clean: Text, n: nat) returns (found: set<Text>)
    requires SafeName(clean) && n <= TRIES
    requires forall k :: 0 <= k < n ==> !Free(existing, Candidate(directory, clean, k))
    ensures |found| == n && found <= Children(existing, directory)
    ensures forall p :: p in found ==> BlocksOne(existing, directory, clean, n, p)
  {
    if n == 0 {
      found := {};
    } else {
      var rest := ManyBlockers(existing, directory, clean, n - 1);
      BlockerExists(existing, directory, clean, n - 1);
      found := OneMoreBlocker(existing, directory, clean, n - 1, rest);
    }
  }

  /** A file is refused for want of a name only when its folder holds at least 999 files. */
  lemma RefusedOnlyWhenFull(existing: set<Text>, directory: Text, fileName: Text)
    requires Reserve(existing, directory, fileName).None?
    ensures |Children(existing, directory)| >= TRIES
  {
    var clean := SanitizeFileName(fileName);
    var paths := Candidates(directory, clean);
    assert forall k :: 0 <= k < TRIES ==> !Free(existing, paths[k]);
    var found := ManyBlockers(existing, directory, clean, TRIES);
    Sets.SubsetSize(found, Children(existing, directory));
  }
}
