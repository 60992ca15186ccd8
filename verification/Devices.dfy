/** The list of devices in the order they are shown. It is sorted, holds no key twice and is bounded,
    and at every moment it is the one enumeration of a map from keys to devices. */
module Devices {
  import opened Transfers
  import Sets

  /** `lastSeen` is in seconds; `details` stands for everything else that is only shown. */
  datatype Device = Device(fingerprint: Text, alias: Text, address: Text, lastSeen: int, details: nat)

  const MAX_DEVICES := 64

  // --- the order --------------------------------------------------------------------------

  /** Code unit by code unit: negative, zero or positive. */
  function Compare(a: Text, b: Text): (order: int)
    ensures order == 0 <==> a == b
  {
    if a == [] then if b == [] then 0 else -1
    else if b == [] then 1
    else if a[0] != b[0] then a[0] - b[0]
    else
      assert a == [a[0]] + a[1..] && b == [b[0]] + b[1..];
      Compare(a[1..], b[1..])
  }

  lemma {:induction false} CompareBack(a: Text, b: Text)
    ensures Compare(a, b) < 0 <==> Compare(b, a) > 0
  {
    if a != [] && b != [] && a[0] == b[0] {
      CompareBack(a[1..], b[1..]);
    }
  }

  lemma {:induction false} CompareChain(a: Text, b: Text, c: Text)
    requires Compare(a, b) < 0 && Compare(b, c) < 0
    ensures Compare(a, c) < 0
  {
    if a != [] && b != [] && c != [] && a[0] == b[0] == c[0] {
      CompareChain(a[1..], b[1..], c[1..]);
    }
  }

  /** How aliases are folded before they are compared; any function will do. */
  type Fold = Text -> Text

  /** By alias without regard to case; the key breaks the tie. */
  predicate Before(fold: Fold, d: Device, e: Device) {
    var order := Compare(fold(d.alias), fold(e.alias));
    order < 0 || (order == 0 && Compare(d.fingerprint, e.fingerprint) < 0)
  }

  lemma BeforeChain(fold: Fold, d: Device, e: Device, f: Device)
    requires Before(fold, d, e) && Before(fold, e, f)
    ensures Before(fold, d, f)
  {
    if Compare(fold(d.alias), fold(e.alias)) < 0 && Compare(fold(e.alias), fold(f.alias)) < 0 {
      CompareChain(fold(d.alias), fold(e.alias), fold(f.alias));
    }
    if Compare(d.fingerprint, e.fingerprint) < 0 && Compare(e.fingerprint, f.fingerprint) < 0 {
      CompareChain(d.fingerprint, e.fingerprint, f.fingerprint);
    }
  }

  lemma BeforeTotal(fold: Fold, d: Device, e: Device)
    requires d.fingerprint != e.fingerprint
    ensures Before(fold, d, e) <==> !Before(fold, e, d)
  {
    CompareBack(fold(d.alias), fold(e.alias));
    CompareBack(fold(e.alias), fold(d.alias));
    CompareBack(d.fingerprint, e.fingerprint);
    CompareBack(e.fingerprint, d.fingerprint);
  }

  lemma NeverBeforeItself(fold: Fold, d: Device)
    ensures !Before(fold, d, d)
  {
  }

  ghost predicate Sorted(fold: Fold, list: seq<Device>) {
    forall i, j :: 0 <= i < j < |list| ==> Before(fold, list[i], list[j])
  }

  // --- the map it enumerates ---------------------------------------------------------------

  type Catalogue = map<Text, Device>

  ghost predicate Keyed(m: Catalogue) {
    forall k :: k in m ==> m[k].fingerprint == k
  }

  predicate Lists(m: Catalogue, d: Device) {
    d.fingerprint in m && m[d.fingerprint] == d
  }

  /** `list` is the devices of `m` in order. */
  ghost predicate Enumerates(fold: Fold, list: seq<Device>, m: Catalogue) {
    && Sorted(fold, list)
    && Keyed(m)
    && (forall d :: d in list <==> Lists(m, d))
  }

  lemma KeysListed(fold: Fold, list: seq<Device>, m: Catalogue)
    requires Enumerates(fold, list, m)
    ensures m.Keys <= set d | d in list :: d.fingerprint
  {
    forall k | k in m
      ensures m[k] in list && m[k].fingerprint == k
    {
      assert Lists(m, m[k]);
    }
  }

  lemma {:induction false} CountIs(fold: Fold, list: seq<Device>, m: Catalogue)
    requires Enumerates(fold, list, m)
    ensures |list| == |m|
    decreases |list|
  {
    if list == [] {
      KeysListed(fold, list, m);
      assert m.Keys == {};
      assert m == map[];
    } else {
      var last := list[|list| - 1];
      WithoutLast(fold, list, m);
      CountIs(fold, list[..|list| - 1], m - {last.fingerprint});
      assert last in list;
      assert m == (m - {last.fingerprint})[last.fingerprint := last];
    }
  }

  /** There is only one such list. */
  lemma {:induction false} OneEnumeration(fold: Fold, a: seq<Device>, b: seq<Device>, m: Catalogue)
    requires Enumerates(fold, a, m) && Enumerates(fold, b, m)
    ensures a == b
    decreases |a|
  {
    CountIs(fold, a, m);
    CountIs(fold, b, m);
    if a != [] {
      var n, k := |a| - 1, |b| - 1;
      LastIsLast(fold, a, b, m);
      WithoutLast(fold, a, m);
      WithoutLast(fold, b, m);
      OneEnumeration(fold, a[..n], b[..k], m - {a[n].fingerprint});
      assert a == a[..n] + [a[n]] && b == b[..k] + [b[k]];
    }
  }

  lemma LastIsLast(fold: Fold, a: seq<Device>, b: seq<Device>, m: Catalogue)
    requires Enumerates(fold, a, m) && Enumerates(fold, b, m) && a != [] && b != []
    ensures a[|a| - 1] == b[|b| - 1]
  {
    var d, e := a[|a| - 1], b[|b| - 1];
    assert d in b && e in a;
    var i :| 0 <= i < |a| && a[i] == e;
    var j :| 0 <= j < |b| && b[j] == d;
    if d.fingerprint != e.fingerprint {
      BeforeTotal(fold, d, e);
    }
  }

  lemma WithoutLast(fold: Fold, list: seq<Device>, m: Catalogue)
    requires Enumerates(fold, list, m) && list != []
    ensures Enumerates(fold, list[..|list| - 1], m - {list[|list| - 1].fingerprint})
  {
    WithoutOne(fold, list, m, |list| - 1);
    assert list[..|list| - 1] + list[|list|..] == list[..|list| - 1];
  }

  /** One row taken out, anywhere. */
  lemma WithoutOne(fold: Fold, list: seq<Device>, m: Catalogue, row: nat)
    requires Enumerates(fold, list, m) && row < |list|
    ensures Enumerates(fold, list[..row] + list[row + 1..], m - {list[row].fingerprint})
  {
    var less := list[..row] + list[row + 1..];
    var gone := list[row];
    assert gone in list;
    forall d
      ensures d in less <==> Lists(m - {gone.fingerprint}, d)
    {
      if d in less {
        assert d in list;
        NeverBeforeItself(fold, gone);
        assert d != gone;
      }
      if d in list && d != gone {
        var i :| 0 <= i < |list| && list[i] == d;
        assert d == if i < row then less[i] else less[i - 1];
      }
    }
  }

  /** One row put in, where it belongs. */
  lemma WithOne(fold: Fold, list: seq<Device>, m: Catalogue, row: nat, d: Device)
    requires Enumerates(fold, list, m) && row <= |list| && d.fingerprint !in m
    requires forall i :: 0 <= i < row ==> Before(fold, list[i], d)
    requires forall i :: row <= i < |list| ==> Before(fold, d, list[i])
    ensures Enumerates(fold, list[..row] + [d] + list[row..], m[d.fingerprint := d])
  {
    var more := list[..row] + [d] + list[row..];
    forall e
      ensures e in more <==> Lists(m[d.fingerprint := d], e)
    {
      assert e in more <==> e in list || e == d by {
        if e in list {
          var i :| 0 <= i < |list| && list[i] == e;
          assert e == if i < row then more[i] else more[i + 1];
        }
        assert more[row] == d;
      }
    }
  }

  /** One row repainted under the same alias and key. */
  lemma WithRepaint(fold: Fold, list: seq<Device>, m: Catalogue, row: nat, d: Device)
    requires Enumerates(fold, list, m) && row < |list|
    requires d.fingerprint == list[row].fingerprint && d.alias == list[row].alias
    ensures Enumerates(fold, list[row := d], m[d.fingerprint := d])
  {
    var less := list[..row] + list[row + 1..];
    WithoutOne(fold, list, m, row);
    var rest := m - {d.fingerprint};
    WithOne(fold, less, rest, row, d);
    assert list[row := d] == less[..row] + [d] + less[row..];
    assert rest[d.fingerprint := d] == m[d.fingerprint := d];
  }

  // --- what the operations do to the map ---------------------------------------------------------

  /** A peer without a key cannot be told apart, one without an address cannot be reached. */
  predicate Usable(d: Device) {
    d.fingerprint != [] && d.address != []
  }

  /** A blocked device is not shown, a known one is brought up to date, and a new one needs room. */
  function Upserted(m: Catalogue, d: Device, blocked: bool, now: int): Catalogue {
    if !Usable(d) then m
    else if blocked then m - {d.fingerprint}
    else if d.fingerprint in m || |m| < MAX_DEVICES then m[d.fingerprint := d.(lastSeen := now)]
    else m
  }

  /** As long as there is room for both, it does not matter which of two devices is heard first: the
      list comes out the same. */
  lemma OrderOfArrival(fold: Fold, a: seq<Device>, b: seq<Device>, m: Catalogue, d: Device, e: Device, now: int)
    requires d.fingerprint != e.fingerprint && |m| + 2 <= MAX_DEVICES
    requires Enumerates(fold, a, Upserted(Upserted(m, d, false, now), e, false, now))
    requires Enumerates(fold, b, Upserted(Upserted(m, e, false, now), d, false, now))
    ensures a == b
  {
    assert Upserted(Upserted(m, d, false, now), e, false, now) == Upserted(Upserted(m, e, false, now), d, false, now);
    OneEnumeration(fold, a, b, Upserted(Upserted(m, d, false, now), e, false, now));
  }

  predicate Recent(d: Device, maxAge: int, now: int) {
    now - d.lastSeen <= maxAge
  }

  function Pruned(m: Catalogue, maxAge: int, now: int): Catalogue {
    map k | k in m && Recent(m[k], maxAge, now) :: m[k]
  }

  function Kept(list: seq<Device>, maxAge: int, now: int): (r: seq<Device>) {
    if list == [] then []
    else (if Recent(list[0], maxAge, now) then [list[0]] else []) + Kept(list[1..], maxAge, now)
  }

  lemma {:induction false} KeptAre(fold: Fold, list: seq<Device>, maxAge: int, now: int)
    requires Sorted(fold, list)
    ensures forall d :: d in Kept(list, maxAge, now) <==> d in list && Recent(d, maxAge, now)
    ensures Sorted(fold, Kept(list, maxAge, now))
  {
    if list != [] {
      var kept := Kept(list[1..], maxAge, now);
      KeptAre(fold, list[1..], maxAge, now);
      assert forall d :: d in list <==> d == list[0] || d in list[1..];
      forall j | 0 <= j < |kept|
        ensures Before(fold, list[0], kept[j])
      {
        assert kept[j] in kept;
      }
    }
  }

  lemma KeptEnumerates(fold: Fold, list: seq<Device>, m: Catalogue, maxAge: int, now: int)
    requires Enumerates(fold, list, m)
    ensures Enumerates(fold, Kept(list, maxAge, now), Pruned(m, maxAge, now))
  {
    KeptAre(fold, list, maxAge, now);
  }

  lemma KeptStep(list: seq<Device>, i: nat, maxAge: int, now: int)
    requires i < |list|
    ensures Kept(list[i..], maxAge, now)
            == (if Recent(list[i], maxAge, now) then [list[i]] else []) + Kept(list[i + 1..], maxAge, now)
  {
    assert list[i..][1..] == list[i + 1..];
  }

  lemma OneRow<T>(list: seq<T>, i: nat, tail: seq<T>)
    requires i < |list|
    ensures var rows := list[..i + 1] + tail;
            && rows[i] == list[i] && rows == list[..i] + ([list[i]] + tail)
            && rows[..i] + rows[i + 1..] == list[..i] + tail
  {
  }

  // --- the object ------------------------------------------------------------------------------------

  class DeviceModel {
    const fold: Fold
    var devices: seq<Device>
    ghost var catalogue: Catalogue

    ghost predicate Valid()
      reads this
    {
      Enumerates(fold, devices, catalogue) && |catalogue| <= MAX_DEVICES
    }

    constructor (folding: Fold)
      ensures Valid() && catalogue == map[]
    {
      fold, devices, catalogue := folding, [], map[];
    }

    method IndexOfFingerprint(fingerprint: Text) returns (row: int)
      requires Valid()
      ensures -1 <= row < |devices|
      ensures row >= 0 ==> devices[row].fingerprint == fingerprint
      ensures row >= 0 <==> fingerprint in catalogue
    {
      for i := 0 to |devices|
        invariant forall j :: 0 <= j < i ==> devices[j].fingerprint != fingerprint
      {
        if devices[i].fingerprint == fingerprint {
          assert devices[i] in devices;
          return i;
        }
      }
      assert fingerprint in catalogue ==> Lists(catalogue, catalogue[fingerprint]);
      return -1;
    }

    /** Everything before the point comes before the device, and everything from it on comes after. */
    method InsertionPoint(d: Device) returns (row: nat)
      requires Valid() && d.fingerprint !in catalogue
      ensures row <= |devices|
      ensures forall i :: 0 <= i < row ==> Before(fold, devices[i], d)
      ensures forall i :: row <= i < |devices| ==> Before(fold, d, devices[i])
    {
      row := 0;
      while row < |devices|
        invariant row <= |devices|
        invariant forall i :: 0 <= i < row ==> Before(fold, devices[i], d)
      {
        var order := Compare(fold(devices[row].alias), fold(d.alias));
        assert devices[row] in devices;
        BeforeTotal(fold, d, devices[row]);
        CompareBack(fold(d.alias), fold(devices[row].alias));
        CompareBack(d.fingerprint, devices[row].fingerprint);
        if order > 0 || (order == 0 && Compare(devices[row].fingerprint, d.fingerprint) > 0) {
          forall i | row < i < |devices|
            ensures Before(fold, d, devices[i])
          {
            BeforeChain(fold, d, devices[row], devices[i]);
          }
          return;
        }
        row := row + 1;
      }
    }

    method InsertAt(row: nat, d: Device)
      requires Valid() && d.fingerprint !in catalogue && |catalogue| < MAX_DEVICES && row <= |devices|
      requires forall i :: 0 <= i < row ==> Before(fold, devices[i], d)
      requires forall i :: row <= i < |devices| ==> Before(fold, d, devices[i])
      modifies this
      ensures Valid() && catalogue == old(catalogue)[d.fingerprint := d]
    {
      WithOne(fold, devices, catalogue, row, d);
      devices := devices[..row] + [d] + devices[row..];
      catalogue := catalogue[d.fingerprint := d];
    }

    method RemoveAt(row: nat)
      requires Valid() && row < |devices|
      modifies this
      ensures Valid() && catalogue == old(catalogue) - {old(devices)[row].fingerprint}
      ensures devices == old(devices)[..row] + old(devices)[row + 1..]
    {
      WithoutOne(fold, devices, catalogue, row);
      catalogue := catalogue - {devices[row].fingerprint};
      devices := devices[..row] + devices[row + 1..];
    }

    method Upsert(d: Device, blocked: bool, now: int) returns (appeared: bool)
      requires Valid()
      modifies this
      ensures Valid() && catalogue == Upserted(old(catalogue), d, blocked, now)
      ensures appeared <==> d.fingerprint !in old(catalogue) && d.fingerprint in catalogue
    {
      if !Usable(d) {
        return false;
      }
      if blocked {
        Remove(d.fingerprint);
        return false;
      }
      var updated := d.(lastSeen := now);
      var existing := IndexOfFingerprint(d.fingerprint);
      if existing >= 0 {
        if devices[existing].alias != updated.alias {
          RemoveAt(existing);
          var target := InsertionPoint(updated);
          InsertAt(target, updated);
        } else {
          WithRepaint(fold, devices, catalogue, existing, updated);
          devices := devices[existing := updated];
          catalogue := catalogue[d.fingerprint := updated];
        }
        return false;
      }
      CountIs(fold, devices, catalogue);
      if |devices| >= MAX_DEVICES {
        return false;
      }
      var target := InsertionPoint(updated);
      InsertAt(target, updated);
      return true;
    }

    method Remove(fingerprint: Text)
      requires Valid()
      modifies this
      ensures Valid() && catalogue == old(catalogue) - {fingerprint}
    {
      var row := IndexOfFingerprint(fingerprint);
      if row < 0 {
        return;
      }
      RemoveAt(row);
    }

    method Clear()
      requires Valid()
      modifies this
      ensures Valid() && catalogue == map[]
    {
      devices, catalogue := [], map[];
    }

    /** Rows are taken out from the end, so that those still to be looked at keep their place. */
    method Prune(maxAge: int, now: int)
      requires Valid()
      modifies this
      ensures Valid() && catalogue == Pruned(old(catalogue), maxAge, now)
    {
      ghost var list := devices;
      var i := |devices| - 1;
      while i >= 0
        invariant -1 <= i < |list|
        invariant i < |devices| && devices == list[..i + 1] + Kept(list[i + 1..], maxAge, now)
        invariant catalogue == old(catalogue)
      {
        KeptStep(list, i, maxAge, now);
        OneRow(list, i, Kept(list[i + 1..], maxAge, now));
        if !Recent(devices[i], maxAge, now) {
          devices := devices[..i] + devices[i + 1..];
        }
        i := i - 1;
      }
      KeptEnumerates(fold, list, catalogue, maxAge, now);
      Sets.SubsetSize(Pruned(catalogue, maxAge, now).Keys, catalogue.Keys);
      assert list[0..] == list;
      catalogue := Pruned(catalogue, maxAge, now);
    }
  }
}
