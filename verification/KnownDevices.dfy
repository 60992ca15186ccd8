/** Which key belongs to which name, and which keys are blocked: trust on first use, kept in a file. */
module KnownDevices {
  import opened Transfers
  import Bytes
  import Sets

  type Option<+T> = Bytes.Option<T>

  /** `firstSeen` is in milliseconds since the epoch. */
  datatype Entry = Entry(alias: Text, firstSeen: int, paired: bool, blocked: bool)
  type Catalogue = map<Text, Entry>

  /** How keys are put into upper case: any function that does nothing the second time. */
  type Upper = Text -> Text

  ghost predicate Folds(upper: Upper) {
    forall t {:trigger upper(upper(t))} :: upper(upper(t)) == upper(t) && (upper(t) == [] <==> t == [])
  }

  /** Every key is in upper case, and none is empty. */
  ghost predicate Canonical(upper: Upper, m: Catalogue) {
    forall k :: k in m ==> upper(k) == k && k != []
  }

  // --- what is asked ---------------------------------------------------------------------

  predicate BlockedKey(m: Catalogue, key: Text) {
    key in m && m[key].blocked
  }

  predicate PairedKey(m: Catalogue, key: Text) {
    key in m && m[key].paired
  }

  predicate IsBlocked(upper: Upper, m: Catalogue, fingerprint: Text) {
    fingerprint != [] && BlockedKey(m, upper(fingerprint))
  }

  predicate IsKnown(upper: Upper, m: Catalogue, fingerprint: Text) {
    fingerprint != [] && PairedKey(m, upper(fingerprint))
  }

  predicate Carries(m: Catalogue, key: Text, alias: Text) {
    PairedKey(m, key) && m[key].alias == alias
  }

  /** A name that belongs to a key we have exchanged files with arrives under one we have not. */
  ghost predicate Conflicts(upper: Upper, m: Catalogue, fingerprint: Text, alias: Text) {
    && fingerprint != [] && alias != []
    && !IsKnown(upper, m, fingerprint)
    && exists k :: Carries(m, k, alias)
  }

  // --- what changes it ---------------------------------------------------------------------

  function SetBlocked(upper: Upper, m: Catalogue, fingerprint: Text, alias: Text, blocked: bool, now: int): Catalogue {
    var key := upper(fingerprint);
    if fingerprint == [] then m
    else if key !in m then if blocked then m[key := Entry(alias, now, false, true)] else m
    else if m[key].blocked == blocked then m
    else m[key := m[key].(blocked := blocked, alias := if alias != [] then alias else m[key].alias)]
  }

  function Remember(upper: Upper, m: Catalogue, fingerprint: Text, alias: Text, now: int): Catalogue {
    var key := upper(fingerprint);
    if fingerprint == [] then m
    else if key in m then m[key := m[key].(alias := alias, paired := true)]
    else m[key := Entry(alias, now, true, false)]
  }

  /** Forgetting a pairing keeps a block. */
  function Forget(upper: Upper, m: Catalogue, fingerprint: Text, now: int): Catalogue {
    var key := upper(fingerprint);
    if key !in m then m
    else if m[key].blocked then m[key := m[key].(alias := [], paired := false, firstSeen := now)]
    else m - {key}
  }

  function BlocksOnly(m: Catalogue, now: int): Catalogue {
    map k | k in m && m[k].blocked :: Entry([], now, false, true)
  }

  /** When there are only blocks on record there is nothing to forget. */
  function ForgetAll(m: Catalogue, now: int): Catalogue {
    if forall k :: k in m ==> m[k].blocked && !m[k].paired then m else BlocksOnly(m, now)
  }

  // --- the file ------------------------------------------------------------------------------

  /** A member of the stored object; what was not written is None. */
  datatype Stored = Stored(alias: Option<Text>, firstSeen: Option<int>, paired: Option<bool>, blocked: Option<bool>)

  type File = seq<(Text, Stored)>

  function StoredOf(e: Entry): Stored {
    Stored(Bytes.Some(e.alias), Bytes.Some(e.firstSeen), Bytes.Some(e.paired), Bytes.Some(e.blocked))
  }

  /** An entry from before blocking existed has no flag, and is a pairing. */
  function EntryOf(s: Stored): Entry {
    var blocked := s.blocked.Some? && s.blocked.value;
    Entry(if s.alias.Some? then s.alias.value else [],
          if s.firstSeen.Some? then s.firstSeen.value else 0,
          if s.paired.Some? then s.paired.value else !blocked,
          blocked)
  }

  function Loaded(upper: Upper, file: File): (m: Catalogue) {
    if file == [] then map[]
    else
      var last := file[|file| - 1];
      Loaded(upper, file[..|file| - 1])[upper(last.0) := EntryOf(last.1)]
  }

  /** The members of `file` are the entries of `m`, in any order. */
  ghost predicate Writes(file: File, m: Catalogue) {
    && (forall i :: 0 <= i < |file| ==> file[i].0 in m && file[i].1 == StoredOf(m[file[i].0]))
    && (forall i, j :: 0 <= i < j < |file| ==> file[i].0 != file[j].0)
    && (forall k :: k in m ==> exists i :: 0 <= i < |file| && file[i].0 == k)
  }

  lemma WithoutLast(file: File, m: Catalogue)
    requires Writes(file, m) && file != []
    ensures Writes(file[..|file| - 1], m - {file[|file| - 1].0})
  {
    var n := |file| - 1;
    forall k | k in m - {file[n].0}
      ensures exists i :: 0 <= i < n && file[..n][i].0 == k
    {
      var i :| 0 <= i < |file| && file[i].0 == k;
      assert file[..n][i].0 == k;
    }
  }

  /** What is saved is what is loaded, whatever order the members come in. */
  lemma {:induction false} LoadAfterSave(upper: Upper, file: File, m: Catalogue)
    requires Canonical(upper, m) && Writes(file, m)
    ensures Loaded(upper, file) == m
    decreases |file|
  {
    if file == [] {
      assert forall k :: k !in m;
    } else {
      var n := |file| - 1;
      var key := file[n].0;
      var rest := m - {key};
      WithoutLast(file, m);
      LoadAfterSave(upper, file[..n], rest);
      assert m == rest[key := m[key]];
    }
  }

  /** A catalogue from before the flags, its keys in whatever case, still knows its devices. */
  lemma {:induction false} OldFileStillKnown(upper: Upper, file: File, i: nat, fingerprint: Text)
    requires Folds(upper) && i < |file| && fingerprint != [] && upper(fingerprint) == upper(file[i].0)
    requires forall j :: 0 <= j < |file| ==> file[j].1.paired.None? && file[j].1.blocked.None?
    ensures IsKnown(upper, Loaded(upper, file), fingerprint) && !IsBlocked(upper, Loaded(upper, file), fingerprint)
    decreases |file|
  {
    var n := |file| - 1;
    if upper(file[n].0) != upper(fingerprint) {
      OldFileStillKnown(upper, file[..n], i, fingerprint);
    }
  }

  // --- runs ------------------------------------------------------------------------------------

  datatype Op =
    | SetsBlocked(fingerprint: Text, alias: Text, blocked: bool, now: int)
    | Remembers(fingerprint: Text, alias: Text, now: int)
    | Forgets(fingerprint: Text, now: int)
    | ForgetsAll(now: int)
    | Restarts(file: File)

  /** A restart reads back what was saved last. */
  ghost predicate Possible(m: Catalogue, op: Op) {
    op.Restarts? ==> Writes(op.file, m)
  }

  function Next(upper: Upper, m: Catalogue, op: Op): Catalogue {
    match op
    case SetsBlocked(fingerprint, alias, blocked, now) => SetBlocked(upper, m, fingerprint, alias, blocked, now)
    case Remembers(fingerprint, alias, now) => Remember(upper, m, fingerprint, alias, now)
    case Forgets(fingerprint, now) => Forget(upper, m, fingerprint, now)
    case ForgetsAll(now) => ForgetAll(m, now)
    case Restarts(file) => Loaded(upper, file)
  }

  lemma NextCanonical(upper: Upper, m: Catalogue, op: Op)
    requires Folds(upper) && Canonical(upper, m) && Possible(m, op)
    ensures Canonical(upper, Next(upper, m, op))
  {
    match op
    case SetsBlocked(fingerprint, _, _, _) => assert upper(upper(fingerprint)) == upper(fingerprint);
    case Remembers(fingerprint, _, _) => assert upper(upper(fingerprint)) == upper(fingerprint);
    case Restarts(file) => LoadAfterSave(upper, file, m);
    case _ =>
  }

  /** Only blocking and unblocking a key changes whether it is blocked, and it does no more than
      that to any key. */
  lemma BlocksKept(upper: Upper, m: Catalogue, op: Op, key: Text)
    requires Canonical(upper, m) && Possible(m, op)
    ensures BlockedKey(Next(upper, m, op), key) <==>
              if op.SetsBlocked? && op.fingerprint != [] && upper(op.fingerprint) == key then op.blocked
              else BlockedKey(m, key)
  {
    if op.Restarts? { LoadAfterSave(upper, op.file, m); }
  }

  /** Only a completed exchange makes a key known. */
  lemma PairingsEarned(upper: Upper, m: Catalogue, op: Op, key: Text)
    requires Canonical(upper, m) && Possible(m, op)
    ensures PairedKey(Next(upper, m, op), key) && !PairedKey(m, key) ==>
              op.Remembers? && upper(op.fingerprint) == key
  {
    if op.Restarts? { LoadAfterSave(upper, op.file, m); }
  }

  function RunAll(upper: Upper, m: Catalogue, ops: seq<Op>): Catalogue
    decreases |ops|
  {
    if ops == [] then m else RunAll(upper, Next(upper, m, ops[0]), ops[1..])
  }

  ghost predicate AllPossible(upper: Upper, m: Catalogue, ops: seq<Op>)
    decreases |ops|
  {
    ops != [] ==> Possible(m, ops[0]) && AllPossible(upper, Next(upper, m, ops[0]), ops[1..])
  }

  /** Whether a key is blocked is what was last asked for it, through any number of pairings,
      forgettings and restarts; until then it is what it was. */
  function LastAsked(upper: Upper, ops: seq<Op>, key: Text, before: bool): bool
    decreases |ops|
  {
    if ops == [] then before
    else
      var op := ops[0];
      LastAsked(upper, ops[1..], key, if op.SetsBlocked? && op.fingerprint != [] && upper(op.fingerprint) == key then op.blocked else before)
  }

  lemma {:induction false} BlockedAsAsked(upper: Upper, m: Catalogue, ops: seq<Op>, key: Text)
    requires Folds(upper) && Canonical(upper, m) && AllPossible(upper, m, ops)
    ensures BlockedKey(RunAll(upper, m, ops), key) <==> LastAsked(upper, ops, key, BlockedKey(m, key))
    decreases |ops|
  {
    if ops != [] {
      BlocksKept(upper, m, ops[0], key);
      NextCanonical(upper, m, ops[0]);
      BlockedAsAsked(upper, Next(upper, m, ops[0]), ops[1..], key);
    }
  }

  // --- the object ------------------------------------------------------------------------------

  class KnownDevices {
    const upper: Upper
    var entries: Catalogue
    var file: File

    /** The file holds what was last changed. */
    ghost predicate Valid()
      reads this
    {
      Folds(upper) && Canonical(upper, entries) && Writes(file, entries)
    }

    /** Starts from a file that was saved before. */
    constructor (folding: Upper, saved: File, ghost last: Catalogue)
      requires Folds(folding) && Canonical(folding, last) && Writes(saved, last)
      ensures Valid() && upper == folding && entries == last
    {
      upper, file, entries := folding, saved, map[];
      new;
      Load();
      LoadAfterSave(folding, saved, last);
    }

    method Load()
      requires entries == map[]
      modifies this`entries
      ensures entries == Loaded(upper, file)
    {
      for i := 0 to |file|
        invariant entries == Loaded(upper, file[..i])
      {
        assert file[..i + 1][..i] == file[..i];
        var (key, stored) := file[i];
        entries := entries[upper(key) := EntryOf(stored)];
      }
      assert file[..|file|] == file;
    }

    method Save()
      requires Folds(upper) && Canonical(upper, entries)
      modifies this`file
      ensures Valid()
    {
      file := [];
      var todo := entries.Keys;
      while todo != {}
        invariant todo <= entries.Keys
        invariant forall i :: 0 <= i < |file| ==> file[i].0 in entries.Keys - todo && file[i].1 == StoredOf(entries[file[i].0])
        invariant forall i, j :: 0 <= i < j < |file| ==> file[i].0 != file[j].0
        invariant forall k :: k in entries && k !in todo ==> exists i :: 0 <= i < |file| && file[i].0 == k
      {
        var key :| key in todo;
        ghost var before := file;
        file := file + [(key, StoredOf(entries[key]))];
        todo := todo - {key};
        forall k | k in entries && k !in todo
          ensures exists i :: 0 <= i < |file| && file[i].0 == k
        {
          if k == key {
            assert file[|file| - 1].0 == k;
          } else {
            var i :| 0 <= i < |before| && before[i].0 == k;
            assert file[i].0 == k;
          }
        }
      }
    }

    method OnSetBlocked(fingerprint: Text, alias: Text, blocked: bool, now: int)
      requires Valid()
      modifies this
      ensures Valid() && entries == SetBlocked(upper, old(entries), fingerprint, alias, blocked, now)
    {
      if |fingerprint| == 0 {
        return;
      }
      NextCanonical(upper, entries, SetsBlocked(fingerprint, alias, blocked, now));
      var key := upper(fingerprint);
      if key !in entries {
        if !blocked {
          return;
        }
        entries := entries[key := Entry(alias, now, false, true)];
      } else {
        if entries[key].blocked == blocked {
          return;
        }
        entries := entries[key := entries[key].(blocked := blocked)];
        if |alias| > 0 {
          entries := entries[key := entries[key].(alias := alias)];
        }
      }
      Save();
    }

    method OnRemember(fingerprint: Text, alias: Text, now: int)
      requires Valid()
      modifies this
      ensures Valid() && entries == Remember(upper, old(entries), fingerprint, alias, now)
    {
      if |fingerprint| == 0 {
        return;
      }
      NextCanonical(upper, entries, Remembers(fingerprint, alias, now));
      var key := upper(fingerprint);
      if key in entries {
        if entries[key].paired && entries[key].alias == alias {
          assert entries[key := entries[key]] == entries;
          return;
        }
        entries := entries[key := entries[key].(alias := alias, paired := true)];
      } else {
        entries := entries[key := Entry(alias, now, true, false)];
      }
      Save();
    }

    method OnForget(fingerprint: Text, now: int)
      requires Valid()
      modifies this
      ensures Valid() && entries == Forget(upper, old(entries), fingerprint, now)
    {
      var key := upper(fingerprint);
      if key !in entries {
        return;
      }
      if entries[key].blocked {
        entries := entries[key := entries[key].(alias := [], paired := false, firstSeen := now)];
      } else {
        entries := entries - {key};
      }
      Save();
    }

    method KeepBlocks(now: int) returns (kept: Catalogue)
      ensures kept == BlocksOnly(entries, now)
    {
      kept := map[];
      var todo := entries.Keys;
      while todo != {}
        invariant todo <= entries.Keys
        invariant forall k :: k in kept <==> k in entries && k !in todo && entries[k].blocked
        invariant forall k :: k in kept ==> kept[k] == Entry([], now, false, true)
        decreases todo
      {
        var key :| key in todo;
        if entries[key].blocked {
          kept := kept[key := Entry([], now, false, true)];
        }
        todo := todo - {key};
      }
    }

    method AnyPaired() returns (found: bool)
      ensures found <==> exists k :: PairedKey(entries, k)
    {
      found := false;
      var todo := entries.Keys;
      while todo != {} && !found
        invariant todo <= entries.Keys
        invariant found ==> exists k :: PairedKey(entries, k)
        invariant !found ==> forall k :: k in entries && k !in todo ==> !PairedKey(entries, k)
        decreases todo
      {
        var key :| key in todo;
        found := entries[key].paired;
        assert found ==> PairedKey(entries, key);
        todo := todo - {key};
      }
    }

    method OnForgetAll(now: int)
      requires Valid()
      modifies this
      ensures Valid() && entries == ForgetAll(old(entries), now)
    {
      if |entries| == 0 {
        assert entries == map[];
        return;
      }
      var kept := KeepBlocks(now);
      var changed := |kept| != |entries|;
      SameCount(entries, now);
      if !changed {
        changed := AnyPaired();
      }
      assert changed <==> exists k :: k in entries && !(entries[k].blocked && !entries[k].paired) by {
        assert forall k :: PairedKey(entries, k) ==> k in entries && !(entries[k].blocked && !entries[k].paired);
        assert forall k :: k in entries && entries[k].paired ==> PairedKey(entries, k);
      }
      if !changed {
        return;
      }
      entries := kept;
      Save();
    }

    // --- questions ---

    /** Some paired key with that name; which one depends on the order the table is gone through. No
        name is no key's. */
    method ExpectedFingerprint(alias: Text) returns (key: Option<Text>)
      ensures key.None? <==> alias == [] || forall k :: !Carries(entries, k, alias)
      ensures key.Some? ==> Carries(entries, key.value, alias)
    {
      if |alias| == 0 {
        return Bytes.None;
      }
      var todo := entries.Keys;
      while todo != {}
        invariant todo <= entries.Keys
        invariant forall k :: k in entries && k !in todo ==> !Carries(entries, k, alias)
        decreases todo
      {
        var k :| k in todo;
        if entries[k].paired && entries[k].alias == alias {
          assert Carries(entries, k, alias);
          return Bytes.Some(k);
        }
        todo := todo - {k};
      }
      return Bytes.None;
    }

    /** Whatever order that is, the answer to this one is the same. */
    method AreInConflict(fingerprint: Text, alias: Text) returns (conflict: bool)
      requires Valid()
      ensures conflict <==> Conflicts(upper, entries, fingerprint, alias)
    {
      if |fingerprint| == 0 || |alias| == 0 {
        return false;
      }
      var key := upper(fingerprint);
      if key in entries && entries[key].paired {
        return false;
      }
      var expected := ExpectedFingerprint(alias);
      if expected.None? || |expected.value| == 0 {
        return false;
      }
      assert Carries(entries, expected.value, alias);
      return upper(expected.value) != upper(fingerprint);
    }
  }

  lemma SameCount(m: Catalogue, now: int)
    ensures |BlocksOnly(m, now)| == |m| <==> forall k :: k in m ==> m[k].blocked
  {
    var kept := BlocksOnly(m, now);
    assert kept.Keys <= m.Keys;
    if k :| k in m && !m[k].blocked {
      Sets.SubsetSize(kept.Keys, m.Keys - {k});
    } else {
      assert kept.Keys == m.Keys;
    }
  }
}
