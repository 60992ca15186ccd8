/** Bytes, searching in byte strings, and the numerals that appear in an HTTP message. */
module Bytes {
  type Byte = b: int | 0 <= b < 256

  const LF: Byte := 10
  const CR: Byte := 13
  const CRLF: seq<Byte> := [CR, LF]
  const BLANK_LINE: seq<Byte> := [CR, LF, CR, LF]

  /** Largest value of a 64-bit signed integer, the width of every length in the reader. */
  const MAX_INT64 := 0x7FFF_FFFF_FFFF_FFFF

  function Ascii(s: string): (r: seq<Byte>)
    requires forall i :: 0 <= i < |s| ==> s[i] < 128 as char
  {
    seq(|s|, i requires 0 <= i < |s| => s[i] as int)
  }

  /** `pat` occurs in `s` at position `i`. */
  predicate At(s: seq<Byte>, pat: seq<Byte>, i: int) {
    0 <= i <= |s| && pat <= s[i..]
  }

  /** Position of the first occurrence of `pat` in `s`, -1 when there is none. */
  function IndexOf(s: seq<Byte>, pat: seq<Byte>): (i: int)
    ensures i == -1 || 0 <= i <= |s| - |pat|
    decreases |s|
  {
    if pat <= s then 0
    else if s == [] then -1
    else
      var r := IndexOf(s[1..], pat);
      if r < 0 then -1 else r + 1
  }

  lemma {:induction false} IndexOfFirst(s: seq<Byte>, pat: seq<Byte>)
    ensures var i := IndexOf(s, pat);
            && (i >= 0 ==> At(s, pat, i))
            && forall j :: At(s, pat, j) ==> 0 <= i <= j
    decreases |s|
  {
    if !(pat <= s) && s != [] {
      var r := IndexOf(s[1..], pat);
      IndexOfFirst(s[1..], pat);
      if r >= 0 {
        assert s[1..][r..] == s[r + 1..];
      }
      assert s[0..] == s;
      forall j | At(s, pat, j)
        ensures r >= 0 && r + 1 <= j
      {
        assert s[1..][j - 1..] == s[j..];
        assert At(s[1..], pat, j - 1);
      }
    } else {
      assert s[0..] == s;
    }
  }

  /** Bytes that arrive later never move an occurrence that was already found, and a new one
      has to reach past the end of what was there before. */
  lemma {:induction false} IndexOfExtend(s: seq<Byte>, t: seq<Byte>, pat: seq<Byte>)
    ensures IndexOf(s, pat) >= 0 ==> IndexOf(s + t, pat) == IndexOf(s, pat)
    ensures IndexOf(s, pat) < 0 && IndexOf(s + t, pat) >= 0 ==> IndexOf(s + t, pat) + |pat| > |s|
    decreases |s|
  {
    if !(pat <= s) && s != [] {
      assert (s + t)[1..] == s[1..] + t;
      IndexOfExtend(s[1..], t, pat);
    }
  }

  /** A terminator that is looked for in `s + pat + t` is found right after an `s` that cannot
      contain any part of it. */
  lemma {:induction false} IndexOfAfter(s: seq<Byte>, pat: seq<Byte>, t: seq<Byte>)
    requires pat != [] && pat[0] !in s
    ensures IndexOf(s + (pat + t), pat) == |s|
    decreases |s|
  {
    var all := s + (pat + t);
    if s == [] {
      assert all == pat + t;
    } else {
      assert all[0] == s[0];
      assert all[1..] == s[1..] + (pat + t);
      IndexOfAfter(s[1..], pat, t);
    }
  }

  lemma {:induction false} NotFound(s: seq<Byte>, b: Byte)
    requires b !in s
    ensures IndexOf(s, [b]) == -1
  {
    if s != [] {
      assert s[0] != b;
      NotFound(s[1..], b);
    }
  }

  lemma Slices(a: seq<Byte>, b: seq<Byte>, c: seq<Byte>)
    ensures (a + b + c)[..|a|] == a && (a + b + c)[|a| + |b|..] == c && a + b + c == a + (b + c)
  {
  }

  lemma SlicesExtend(s: seq<Byte>, t: seq<Byte>, n: nat)
    requires n <= |s|
    ensures (s + t)[..n] == s[..n] && (s + t)[n..] == s[n..] + t
  {
  }

  /** The pieces between the occurrences of `sep`; always at least one piece. */
  function Split<T(==)>(s: seq<T>, sep: T): (r: seq<seq<T>>)
    ensures |r| >= 1
    decreases |s|
  {
    if s == [] then [[]]
    else
      var rest := Split(s[1..], sep);
      if s[0] == sep then [[]] + rest
      else [[s[0]] + rest[0]] + rest[1..]
  }

  /** White space in the C locale: tab to carriage return, and space. */
  predicate IsSpace(b: Byte) {
    9 <= b <= 13 || b == 32
  }

  function TrimLeft(s: seq<Byte>): (r: seq<Byte>)
    ensures |r| <= |s|
  {
    if s != [] && IsSpace(s[0]) then TrimLeft(s[1..]) else s
  }

  function TrimRight(s: seq<Byte>): (r: seq<Byte>)
    ensures |r| <= |s|
  {
    if s != [] && IsSpace(s[|s| - 1]) then TrimRight(s[..|s| - 1]) else s
  }

  function Trim(s: seq<Byte>): (r: seq<Byte>) {
    TrimRight(TrimLeft(s))
  }

  lemma {:induction false} TrimRightBlanks(s: seq<Byte>, blanks: seq<Byte>)
    requires s != [] && !IsSpace(s[|s| - 1])
    requires forall i :: 0 <= i < |blanks| ==> IsSpace(blanks[i])
    ensures TrimRight(s + blanks) == s
    decreases |blanks|
  {
    if blanks == [] {
      assert s + blanks == s;
    } else {
      var t := s + blanks;
      assert t[..|t| - 1] == s + blanks[..|blanks| - 1];
      TrimRightBlanks(s, blanks[..|blanks| - 1]);
    }
  }

  predicate AllSpace(s: seq<Byte>) {
    forall i :: 0 <= i < |s| ==> IsSpace(s[i])
  }

  /** Nothing, or something with no white space at either end. */
  predicate Tight(s: seq<Byte>) {
    s != [] ==> !IsSpace(s[0]) && !IsSpace(s[|s| - 1])
  }

  lemma {:induction false} TrimLeftBlanks(blanks: seq<Byte>, s: seq<Byte>)
    requires AllSpace(blanks) && (s != [] ==> !IsSpace(s[0]))
    ensures TrimLeft(blanks + s) == s
    decreases |blanks|
  {
    if blanks == [] {
      assert blanks + s == s;
    } else {
      assert (blanks + s)[1..] == blanks[1..] + s;
      TrimLeftBlanks(blanks[1..], s);
    }
  }

  lemma {:induction false} TrimNothing(blanks: seq<Byte>)
    requires AllSpace(blanks)
    ensures Trim(blanks) == []
  {
    assert blanks + [] == blanks;
    TrimLeftBlanks(blanks, []);
  }

  /** Trimming takes off what stands around. */
  lemma TrimAround(left: seq<Byte>, s: seq<Byte>, right: seq<Byte>)
    requires AllSpace(left) && AllSpace(right) && Tight(s)
    ensures Trim(left + s + right) == s
  {
    if s == [] {
      assert left + s + right == left + right;
      TrimNothing(left + right);
    } else {
      assert left + s + right == left + (s + right);
      assert (s + right)[0] == s[0];
      TrimLeftBlanks(left, s + right);
      TrimRightBlanks(s, right);
    }
  }

  lemma {:induction false} SplitWhole(s: seq<Byte>, sep: Byte)
    requires sep !in s
    ensures Split(s, sep) == [s]
  {
    if s != [] {
      assert s[0] != sep;
      SplitWhole(s[1..], sep);
      assert [s[0]] + s[1..] == s;
    }
  }

  /** Splitting takes off what stands before the first separator. */
  lemma {:induction false} SplitFirst(s: seq<Byte>, sep: Byte, rest: seq<Byte>)
    requires sep !in s
    ensures Split(s + ([sep] + rest), sep) == [s] + Split(rest, sep)
    decreases |s|
  {
    var all := s + ([sep] + rest);
    if s == [] {
      assert all == [sep] + rest;
      assert all[1..] == rest;
    } else {
      assert all[0] == s[0] && all[1..] == s[1..] + ([sep] + rest);
      SplitFirst(s[1..], sep, rest);
      assert [s[0]] + s[1..] == s;
    }
  }

  /** Latin-1 lower case, the folding used for header names. */
  function LowerByte(b: Byte): Byte {
    if 65 <= b <= 90 || (192 <= b <= 222 && b != 215) then b + 32 else b
  }

  function Lower(s: seq<Byte>): (r: seq<Byte>) {
    seq(|s|, i requires 0 <= i < |s| => LowerByte(s[i]))
  }

  function UpperAscii(s: seq<Byte>): (r: seq<Byte>) {
    seq(|s|, i requires 0 <= i < |s| => if 97 <= s[i] <= 122 then s[i] - 32 else s[i])
  }

  // --- numerals ---------------------------------------------------------------------

  datatype Option<+T> = None | Some(value: T)

  /** Value of one digit in bases up to 16, -1 for anything else. */
  function DigitValue(b: Byte): (v: int)
    ensures -1 <= v < 16
  {
    if 48 <= b <= 57 then b - 48
    else if 65 <= b <= 70 then b - 55
    else if 97 <= b <= 102 then b - 87
    else -1
  }

  predicate IsNumeral(s: seq<Byte>, base: nat) {
    s != [] && forall i :: 0 <= i < |s| ==> 0 <= DigitValue(s[i]) < base
  }

  function NumeralValue(s: seq<Byte>, base: nat): (v: int)
    requires forall i :: 0 <= i < |s| ==> 0 <= DigitValue(s[i]) < base
    ensures v >= 0
  {
    if s == [] then 0
    else NumeralValue(s[..|s| - 1], base) * base + DigitValue(s[|s| - 1])
  }

  /** The conversion to a 64-bit integer that the reader uses for a length: white space, a sign,
      an optional 0x in base 16, then digits only, and in range. */
  function ParseInt64(s: seq<Byte>, base: nat): (r: Option<int>)
    ensures r.Some? ==> -MAX_INT64 - 1 <= r.value <= MAX_INT64
  {
    var t := TrimLeft(s);
    var negative := t != [] && t[0] == 45;
    var u := if t != [] && (t[0] == 45 || t[0] == 43) then t[1..] else t;
    var d := if base == 16 && |u| >= 2 && u[0] == 48 && (u[1] == 120 || u[1] == 88) then u[2..] else u;
    if !IsNumeral(d, base) then None
    else
      var v := if negative then -NumeralValue(d, base) else NumeralValue(d, base);
      if -MAX_INT64 - 1 <= v <= MAX_INT64 then Some(v) else None
  }

  /** A bare numeral in range reads as its own value: no digit can be mistaken for white space,
      a sign or the 0x prefix. */
  lemma ParseNumeral(s: seq<Byte>, base: nat)
    requires IsNumeral(s, base) && base <= 16 && NumeralValue(s, base) <= MAX_INT64
    ensures ParseInt64(s, base) == Some(NumeralValue(s, base))
  {
    assert 0 <= DigitValue(s[0]) < base;
    assert TrimLeft(s) == s;
    if |s| >= 2 {
      assert 0 <= DigitValue(s[1]) < base;
    }
  }

  /** The numeral of `n` in lower-case digits, the way a sender prints it. */
  function Digit(v: nat): Byte
    requires v < 16
  {
    if v < 10 then 48 + v else 87 + v
  }

  function Numeral(n: nat, base: nat): (s: seq<Byte>)
    requires 2 <= base <= 16
  {
    if n < base then [Digit(n)] else Numeral(n / base, base) + [Digit(n % base)]
  }

  /** Printing and reading a number are inverse. */
  lemma {:induction false} NumeralRoundTrip(n: nat, base: nat)
    requires base == 10 || base == 16
    ensures IsNumeral(Numeral(n, base), base) && NumeralValue(Numeral(n, base), base) == n
    decreases n
  {
    var s := Numeral(n, base);
    if n >= base {
      NumeralRoundTrip(n / base, base);
      assert s[..|s| - 1] == Numeral(n / base, base);
      assert s[|s| - 1] == Digit(n % base);
      assert n / base * base + n % base == n;
    } else {
      assert Numeral(n, base)[..0] == [];
    }
  }
}
