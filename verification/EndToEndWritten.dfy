/** A way of writing uploads that is understood as it was meant: what EndToEndBytes asks of the wire can
    be had. */
module EndToEndWritten {
  import opened Transfers
  import opened EndToEnd
  import opened EndToEndBytes
  import S = Send
  import R = Receive
  import HH = HttpHead
  import HT = HttpHeadText
  import H = HttpReader
  import D = HttpDelivery
  import NE = NamingExhausted
  import Naming
  import Bytes

  // --- a target that says it all -------------------------------------------------------------------

  /** Digits, and nothing else. */
  predicate AllDigits(s: seq<Byte>) {
    forall i :: 0 <= i < |s| ==> 48 <= s[i] <= 57
  }

  function Decimal(n: nat): (s: seq<Byte>)
    ensures AllDigits(s) && s != []
  {
    DecimalDigits(n);
    Bytes.Numeral(n, 10)
  }

  lemma {:induction false} DecimalDigits(n: nat)
    ensures AllDigits(Bytes.Numeral(n, 10)) && Bytes.Numeral(n, 10) != []
  {
    if n >= 10 { DecimalDigits(n / 10); }
  }

  lemma DecimalsApart(m: nat, n: nat)
    requires Decimal(m) == Decimal(n)
    ensures m == n
  {
    Bytes.NumeralRoundTrip(m, 10);
    Bytes.NumeralRoundTrip(n, 10);
  }

  const DOT: Byte := 46
  const SLASH: Byte := 47

  predicate Plain(b: Byte) {
    46 <= b <= 57
  }

  predicate AllPlain(s: seq<Byte>) {
    forall i :: 0 <= i < |s| ==> Plain(s[i])
  }

  /** A text, each of its units as a number with a dot behind it. */
  function Spelled(t: Text): (s: seq<Byte>)
    ensures AllPlain(s) && SLASH !in s
  {
    if t == [] then [] else Decimal(t[0]) + ([DOT] + Spelled(t[1..]))
  }

  lemma {:induction false} SpelledApart(a: Text, b: Text)
    requires Spelled(a) == Spelled(b)
    ensures a == b
  {
    if a != [] && b != [] {
      Bytes.SplitFirst(Decimal(a[0]), DOT, Spelled(a[1..]));
      Bytes.SplitFirst(Decimal(b[0]), DOT, Spelled(b[1..]));
      assert Decimal(a[0]) == Bytes.Split(Spelled(a), DOT)[0] == Decimal(b[0]);
      DecimalsApart(a[0], b[0]);
      var n := |Decimal(a[0])| + 1;
      assert Spelled(a)[n..] == Spelled(a[1..]) && Spelled(b)[n..] == Spelled(b[1..]);
      SpelledApart(a[1..], b[1..]);
      assert a == [a[0]] + a[1..] && b == [b[0]] + b[1..];
    }
  }

  function Target(u: R.UploadRequest): (s: seq<Byte>)
    requires u.length >= 0
    ensures AllPlain(s)
  {
    Decimal(u.session) + ([SLASH] + (Decimal(u.token) + ([SLASH] + (Decimal(u.length) + ([SLASH] + Spelled(u.fileId))))))
  }

  lemma Parts(u: R.UploadRequest)
    requires u.length >= 0
    ensures Bytes.Split(Target(u), SLASH) == [Decimal(u.session), Decimal(u.token), Decimal(u.length), Spelled(u.fileId)]
  {
    var c := Spelled(u.fileId);
    var b := Decimal(u.length) + ([SLASH] + c);
    var a := Decimal(u.token) + ([SLASH] + b);
    Bytes.SplitWhole(c, SLASH);
    Bytes.SplitFirst(Decimal(u.length), SLASH, c);
    Bytes.SplitFirst(Decimal(u.token), SLASH, b);
    Bytes.SplitFirst(Decimal(u.session), SLASH, a);
  }

  lemma TargetsApart(u: R.UploadRequest, v: R.UploadRequest)
    requires u.length >= 0 && v.length >= 0 && Target(u) == Target(v)
    ensures u == v
  {
    Parts(u);
    Parts(v);
    var parts := Bytes.Split(Target(u), SLASH);
    assert parts[0] == Decimal(u.session) == Decimal(v.session);
    assert parts[1] == Decimal(u.token) == Decimal(v.token);
    assert parts[2] == Decimal(u.length) == Decimal(v.length);
    assert parts[3] == Spelled(u.fileId) == Spelled(v.fileId);
    DecimalsApart(u.session, v.session);
    DecimalsApart(u.token, v.token);
    DecimalsApart(u.length, v.length);
    SpelledApart(u.fileId, v.fileId);
  }

  // --- a head with it ------------------------------------------------------------------------------

  const LENGTH := Bytes.Ascii("content-length")
  const POST := Bytes.Ascii("POST")
  const VERSION := Bytes.Ascii("HTTP/1.1")

  function LengthField(n: nat): HT.FieldText {
    HT.FieldText(LENGTH, [32], Decimal(n), [])
  }

  function Line(target: seq<Byte>): HT.RequestLine {
    HT.RequestLine(POST, target, VERSION)
  }

  function HeadText(target: seq<Byte>, n: nat): seq<Byte> {
    HT.Text(Line(target).Line(), [LengthField(n)])
  }

  lemma NoEnds(s: seq<Byte>)
    requires forall i :: 0 <= i < |s| ==> s[i] > 13
    ensures Bytes.CR !in s && Bytes.LF !in s
  {
  }

  lemma FieldFine(n: nat)
    ensures LengthField(n).WellFormed() && LengthField(n).Line()[0] == 99
    ensures forall i :: 0 <= i < |LengthField(n).Line()| ==> LengthField(n).Line()[i] > 13
  {
    var d := Decimal(n);
    NoEnds(d);
    NoEnds(LENGTH);
  }

  lemma LineFine(target: seq<Byte>)
    requires AllPlain(target)
    ensures Line(target).WellFormed() && (forall i :: 0 <= i < |Line(target).Line()| ==> Line(target).Line()[i] > 13)
  {
    NoEnds(target);
    NoEnds(POST);
    NoEnds(VERSION);
  }

  /** No two carriage returns are as close as in a blank line. */
  lemma ReturnsApart(a: seq<Byte>, b: seq<Byte>, all: seq<Byte>, i: nat)
    requires Bytes.CR !in a && Bytes.CR !in b && b != []
    requires all == a + [Bytes.CR] + ([Bytes.LF] + b) + Bytes.BLANK_LINE && i < |a| + 2 + |b|
    ensures all[i] != Bytes.CR || all[i + 2] != Bytes.CR
  {
    if i < |a| {
      assert all[i] == a[i];
    } else if i == |a| {
      assert all[i + 2] == b[0];
    } else if i > |a| + 1 {
      assert all[i] == b[i - |a| - 2];
    }
  }

  /** There is one line end in it, and no blank line before its end. */
  lemma NoBlankLine(a: seq<Byte>, b: seq<Byte>)
    requires Bytes.CR !in a && Bytes.CR !in b && b != []
    ensures var text := a + [Bytes.CR] + ([Bytes.LF] + b);
            Bytes.IndexOf(text + Bytes.BLANK_LINE, Bytes.BLANK_LINE) == |text|
  {
    var text := a + [Bytes.CR] + ([Bytes.LF] + b);
    var all := text + Bytes.BLANK_LINE;
    Bytes.IndexOfFirst(all, Bytes.BLANK_LINE);
    assert all[|text|..] == Bytes.BLANK_LINE;
    assert Bytes.At(all, Bytes.BLANK_LINE, |text|);
    var i := Bytes.IndexOf(all, Bytes.BLANK_LINE);
    StartsWithReturn(all, i);
    if i < |text| { ReturnsApart(a, b, all, i); }
  }

  lemma StartsWithReturn(s: seq<Byte>, i: nat)
    requires Bytes.At(s, Bytes.BLANK_LINE, i)
    ensures i + 2 < |s| && s[i] == Bytes.CR && s[i + 2] == Bytes.CR
  {
    assert s[i..][0] == Bytes.CR && s[i..][2] == Bytes.CR;
  }

  lemma HeadEnds(target: seq<Byte>, n: nat)
    requires AllPlain(target)
    ensures Bytes.IndexOf(HeadText(target, n) + Bytes.BLANK_LINE, Bytes.BLANK_LINE) == |HeadText(target, n)|
  {
    var a, b := Line(target).Line(), LengthField(n).Line();
    LineFine(target);
    FieldFine(n);
    NoEnds(a);
    NoEnds(b);
    assert [LengthField(n)][1..] == [] && HT.Text(b, []) == b;
    NoBlankLine(a, b);
    assert HeadText(target, n) == a + [Bytes.CR] + ([Bytes.LF] + b);
  }

  lemma OneMeaning(n: nat)
    ensures HT.Meanings([LengthField(n)]) == [LengthField(n).Meaning()]
    ensures LengthField(n).Meaning() == (LENGTH, Decimal(n))
    ensures HH.Consistent([(LENGTH, Decimal(n))], map[])
  {
    assert HT.Meanings([LengthField(n)][1..]) == [];
    assert Bytes.Lower(LENGTH) == LENGTH;
  }

  /** A table of that one field gives the length. */
  lemma LengthRead(table: HH.Fields, n: nat)
    requires HH.Tabulates([(LENGTH, Decimal(n))], map[], table) && n <= Bytes.MAX_INT64
    ensures HH.BodyLength(table) == n
  {
    var coding := Bytes.Ascii("transfer-encoding");
    assert |coding| == 17 && |LENGTH| == 14;
    assert coding !in table;
    assert Bytes.Lower([]) == [];
    Bytes.NumeralRoundTrip(n, 10);
    Bytes.ParseNumeral(Decimal(n), 10);
    assert (LENGTH, Decimal(n)) in [(LENGTH, Decimal(n))];
  }

  lemma HeadReads(target: seq<Byte>, n: nat)
    requires AllPlain(target) && n <= Bytes.MAX_INT64
    ensures var head := HH.ParseHead(HeadText(target, n));
            head.Some? && head.value.target == target && head.value.length == n
  {
    LineFine(target);
    FieldFine(n);
    OneMeaning(n);
    HT.HeadRoundTrip(Line(target), [LengthField(n)]);
    LengthRead(HH.ParseHead(HeadText(target, n)).value.fields, n);
  }

  // --- the net --------------------------------------------------------------------------------------

  function Request(q: S.Request): R.UploadRequest
    requires q.Upload?
  {
    R.UploadRequest(q.session, q.id, q.token, q.size)
  }

  function Written(g: Setting, q: S.Request): D.Message {
    if !q.Upload? then D.Message([], HH.HeadOf([], [], map[]), [])
    else
      var body := g.source(q.path);
      var bytes := HeadText(Target(Request(q)), |body|);
      var head := HH.ParseHead(bytes);
      D.Message(bytes, if head.Some? then head.value else HH.HeadOf([], [], map[]), body)
  }

  ghost function Understood(head: HH.Head): R.UploadRequest {
    if u: R.UploadRequest :| u.length >= 0 && Target(u) == head.target then u else R.UploadRequest(0, [], 0, 0)
  }

  /** Whatever the files are, as long as their sizes fit a length field, and whatever the owners do: there
      is a way of writing uploads, in bytes that the reader can parse, which is understood as meant. */
  lemma FaithfulNet(g: Setting, owner: ConnId -> H.Owner) returns (x: Net)
    requires forall path :: |g.source(path)| <= Bytes.MAX_INT64
    ensures x.owner == owner && Faithful(g, x)
  {
    x := Net(q => Written(g, q), head => Understood(head), owner);
    forall q: S.Request | q.Upload?
      ensures D.WellFormed(x.write(q)) && x.write(q).body == g.source(q.path)
      ensures x.ask(x.write(q).head) == R.UploadRequest(q.session, q.id, q.token, q.size)
    {
      WrittenFine(g, q);
    }
  }

  lemma WrittenFine(g: Setting, q: S.Request)
    requires q.Upload? && |g.source(q.path)| <= Bytes.MAX_INT64
    ensures D.WellFormed(Written(g, q)) && Written(g, q).body == g.source(q.path)
    ensures Understood(Written(g, q).head) == Request(q)
  {
    var target, n := Target(Request(q)), |g.source(q.path)|;
    HeadReads(target, n);
    HeadEnds(target, n);
    UnderstoodIs(Written(g, q).head, Request(q));
  }

  lemma UnderstoodIs(head: HH.Head, u: R.UploadRequest)
    requires u.length >= 0 && Target(u) == head.target
    ensures Understood(head) == u
  {
    TargetsApart(Understood(head), u);
  }
}
