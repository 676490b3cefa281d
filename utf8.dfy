/**
 * `str::from_utf8`: the well-formed UTF-8 byte sequences of section 4 of RFC 3629 (no overlong
 * forms, no surrogates, nothing above U+10FFFF) and the text they encode.
 */
module Utf8 {
  import opened Wrappers
  import opened RustNum

  predicate IsTail(b: Byte) { 0x80 <= b <= 0xBF }

  /** The number of bytes of the well-formed sequence starting at `s[0]`, or 0 when there is none. */
  function SequenceLength(s: seq<Byte>): (n: nat)
    requires s != []
    ensures n <= |s| && n <= 4
  {
    var b0 := s[0];
    if b0 <= 0x7F then 1
    else if 0xC2 <= b0 <= 0xDF && |s| >= 2 && IsTail(s[1]) then 2
    else if |s| >= 3 && IsTail(s[2]) &&
      ((b0 == 0xE0 && 0xA0 <= s[1] <= 0xBF) || (0xE1 <= b0 <= 0xEC && IsTail(s[1])) ||
       (b0 == 0xED && 0x80 <= s[1] <= 0x9F) || (0xEE <= b0 <= 0xEF && IsTail(s[1]))) then 3
    else if |s| >= 4 && IsTail(s[2]) && IsTail(s[3]) &&
      ((b0 == 0xF0 && 0x90 <= s[1] <= 0xBF) || (0xF1 <= b0 <= 0xF3 && IsTail(s[1])) ||
       (b0 == 0xF4 && 0x80 <= s[1] <= 0x8F)) then 4
    else 0
  }

  /** The six payload bits of the continuation byte at `i`, or 0 past the end. */
  function Tail(s: seq<Byte>, i: nat): (t: int)
    ensures 0 <= t < 0x40 || (i < |s| && !IsTail(s[i]))
  {
    if i < |s| then s[i] as int - 0x80 else 0
  }

  predicate IsScalar(cp: int) { 0 <= cp < 0xD800 || 0xE000 <= cp < 0x11_0000 }

  /** The code point of a well-formed sequence of `n` bytes. */
  function CodePoint(s: seq<Byte>, n: nat): (cp: int)
    requires s != [] && n == SequenceLength(s) && n > 0
    ensures IsScalar(cp)
  {
    var b0, b1, b2, b3 := s[0] as int, Tail(s, 1), Tail(s, 2), Tail(s, 3);
    if n == 1 then b0
    else if n == 2 then (b0 - 0xC0) * 0x40 + b1
    else if n == 3 then (b0 - 0xE0) * 0x1000 + b1 * 0x40 + b2
    else (b0 - 0xF0) * 0x4_0000 + b1 * 0x1000 + b2 * 0x40 + b3
  }

  /** `str::from_utf8`: the text of a well-formed byte sequence, or None. */
  function Decode(s: seq<Byte>): Option<string>
    decreases |s|
  {
    if s == [] then Some([])
    else
      var n := SequenceLength(s);
      if n == 0 then None
      else
        match Decode(s[n..])
        case None => None
        case Some(rest) => Some([CodePoint(s, n) as char] + rest)
  }

  predicate IsAscii(s: seq<Byte>) { forall i :: 0 <= i < |s| ==> s[i] <= 0x7F }

  function AsciiText(s: seq<Byte>): (t: string)
    requires IsAscii(s)
    ensures |t| == |s| && forall i :: 0 <= i < |s| ==> t[i] as int == s[i]
  {
    seq(|s|, i requires 0 <= i < |s| => s[i] as char)
  }

  /** Bytes below 0x80 are always well-formed, one character per byte. */
  lemma {:induction false} DecodeAscii(s: seq<Byte>)
    requires IsAscii(s)
    ensures Decode(s) == Some(AsciiText(s))
    decreases |s|
  {
    if s != [] {
      DecodeAscii(s[1..]);
      assert AsciiText(s) == [s[0] as char] + AsciiText(s[1..]);
    }
  }

  /** The UTF-8 form of one character, per the table in section 3 of RFC 3629. */
  function EncodeChar(c: char): (s: seq<Byte>)
    ensures 1 <= |s| <= 4
  {
    var cp := c as int;
    if cp < 0x80 then [cp]
    else if cp < 0x800 then [0xC0 + cp / 0x40, 0x80 + cp % 0x40]
    else if cp < 0x1_0000 then [0xE0 + cp / 0x1000, 0x80 + (cp / 0x40) % 0x40, 0x80 + cp % 0x40]
    else [0xF0 + cp / 0x4_0000, 0x80 + (cp / 0x1000) % 0x40, 0x80 + (cp / 0x40) % 0x40, 0x80 + cp % 0x40]
  }

  function Encode(t: string): seq<Byte>
  {
    if t == [] then [] else EncodeChar(t[0]) + Encode(t[1..])
  }

  lemma EncodeTwo(c: char, rest: seq<Byte>)
    requires 0x80 <= c as int < 0x800
    ensures var s := EncodeChar(c) + rest;
      |EncodeChar(c)| == 2 && SequenceLength(s) == 2 && CodePoint(s, 2) == c as int
  {
    var cp := c as int;
    var q, r := cp / 0x40, cp % 0x40;
    assert EncodeChar(c) == [0xC0 + q, 0x80 + r];
    assert cp == q * 0x40 + r;
    assert 2 <= q < 0x20;
  }

  lemma EncodeThree(c: char, rest: seq<Byte>)
    requires 0x800 <= c as int < 0x1_0000
    ensures var s := EncodeChar(c) + rest;
      |EncodeChar(c)| == 3 && SequenceLength(s) == 3 && CodePoint(s, 3) == c as int
  {
    var cp := c as int;
    var hi, mid, lo := cp / 0x1000, (cp / 0x40) % 0x40, cp % 0x40;
    assert EncodeChar(c) == [0xE0 + hi, 0x80 + mid, 0x80 + lo];
    assert cp / 0x40 == hi * 0x40 + mid;
    assert cp == (hi * 0x40 + mid) * 0x40 + lo;
    assert cp == hi * 0x1000 + mid * 0x40 + lo;
    assert hi < 0x10;
    assert hi == 0 ==> mid >= 0x20;
    assert hi == 0xD ==> mid < 0x20;
  }

  lemma EncodeFour(c: char, rest: seq<Byte>)
    requires 0x1_0000 <= c as int
    ensures var s := EncodeChar(c) + rest;
      |EncodeChar(c)| == 4 && SequenceLength(s) == 4 && CodePoint(s, 4) == c as int
  {
    var cp := c as int;
    var top, hi, mid, lo := cp / 0x4_0000, (cp / 0x1000) % 0x40, (cp / 0x40) % 0x40, cp % 0x40;
    assert EncodeChar(c) == [0xF0 + top, 0x80 + hi, 0x80 + mid, 0x80 + lo];
    assert cp / 0x1000 == top * 0x40 + hi;
    assert cp / 0x40 == (top * 0x40 + hi) * 0x40 + mid;
    assert cp == ((top * 0x40 + hi) * 0x40 + mid) * 0x40 + lo;
    assert cp == top * 0x4_0000 + hi * 0x1000 + mid * 0x40 + lo;
    assert top <= 4;
    assert top == 0 ==> hi >= 0x10;
    assert top == 4 ==> hi < 0x10;
  }

  /** The bytes of one character start a well-formed sequence of their own length, holding it. */
  lemma EncodeCharDecodes(c: char, rest: seq<Byte>)
    ensures var s := EncodeChar(c) + rest;
      SequenceLength(s) == |EncodeChar(c)| && CodePoint(s, |EncodeChar(c)|) == c as int
  {
    var cp := c as int;
    if cp < 0x80 {
      assert EncodeChar(c) == [cp];
    } else if cp < 0x800 {
      EncodeTwo(c, rest);
    } else if cp < 0x1_0000 {
      EncodeThree(c, rest);
    } else {
      EncodeFour(c, rest);
    }
  }

  /** Every text is well-formed once encoded and decodes back to itself. */
  lemma {:induction false} DecodeEncode(t: string)
    ensures Decode(Encode(t)) == Some(t)
  {
    if t != [] {
      var e := EncodeChar(t[0]);
      var s := Encode(t);
      EncodeCharDecodes(t[0], Encode(t[1..]));
      assert s[|e|..] == Encode(t[1..]);
      DecodeEncode(t[1..]);
      assert t == [t[0]] + t[1..];
    }
  }
}
