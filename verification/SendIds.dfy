/** The ids the sending side makes up are unique within a request, whatever files were picked. */
module SendIds {
  import opened Transfers
  import opened Send
  import Bytes
  import Naming
  import NamingExhausted

  ghost predicate IdsApart(files: seq<FileEntry>) {
    forall i, j {:trigger files[i].id, files[j].id} :: 0 <= i < j < |files| ==> files[i].id != files[j].id
  }

  lemma NoDashInside(index: nat)
    ensures DASH !in Naming.Number(index)
  {
    var digits := Naming.Number(index);
    Bytes.NumeralRoundTrip(index, 10);
    forall i | 0 <= i < |digits|
      ensures digits[i] != DASH
    {
      assert 0 <= Bytes.DigitValue(digits[i]) < 10;
    }
  }

  /** What stands before the first dash. */
  function BeforeDash(t: Text): Text {
    if t == [] || t[0] == DASH then [] else [t[0]] + BeforeDash(t[1..])
  }

  lemma {:induction false} BeforeDashIs(t: Text, rest: Text)
    requires DASH !in t
    ensures BeforeDash(t + [DASH] + rest) == t
  {
    if t != [] {
      assert (t + [DASH] + rest)[1..] == t[1..] + [DASH] + rest;
      BeforeDashIs(t[1..], rest);
    }
  }

  /** Ids with different indices differ: the index ends at the first dash. */
  lemma IdsDiffer(i: nat, a: Text, j: nat, b: Text)
    requires i != j
    ensures IdOf(i, a) != IdOf(j, b)
  {
    NoDashInside(i);
    NoDashInside(j);
    BeforeDashIs(Naming.Number(i), a);
    BeforeDashIs(Naming.Number(j), b);
    if Naming.Number(i) == Naming.Number(j) {
      NamingExhausted.NumbersApart(i, j);
    }
  }

  ghost predicate Numbered(id: Text, sources: seq<Source>, n: nat)
    requires n <= |sources|
  {
    exists k :: 0 <= k < n && id == IdOf(k, sources[k].salt)
  }

  lemma {:induction false} EntriesNumbered(sources: seq<Source>, n: nat)
    requires n <= |sources|
    ensures forall f :: f in EntriesOf(sources, n) ==> Numbered(f.id, sources, n)
  {
    if n > 0 {
      EntriesNumbered(sources, n - 1);
      forall f | f in EntriesOf(sources, n)
        ensures Numbered(f.id, sources, n)
      {
        if f in EntriesOf(sources, n - 1) {
          assert Numbered(f.id, sources, n - 1);
        } else {
          assert f.id == IdOf(n - 1, sources[n - 1].salt);
        }
      }
    }
  }

  lemma {:induction false} EntriesApart(sources: seq<Source>, n: nat)
    requires n <= |sources|
    ensures IdsApart(EntriesOf(sources, n))
  {
    if n > 0 {
      var earlier, entries := EntriesOf(sources, n - 1), EntriesOf(sources, n);
      EntriesApart(sources, n - 1);
      EntriesNumbered(sources, n - 1);
      forall i, j | 0 <= i < j < |entries|
        ensures entries[i].id != entries[j].id
      {
        assert entries[i] in earlier && Numbered(entries[i].id, sources, n - 1);
        if j == |earlier| {
          var k :| 0 <= k < n - 1 && entries[i].id == IdOf(k, sources[k].salt);
          IdsDiffer(k, sources[k].salt, n - 1, sources[n - 1].salt);
        }
      }
    }
  }
}
