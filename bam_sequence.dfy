/**
 * The 4-bit packing of a read sequence in a BAM record (section 4.2.3 of the SAMv1
 * specification): two bases per byte, the first in the high nibble.
 */
module BamSequence {
  import opened RustNum

  /**
   * A SAM sequence base: '=' or an upper-case letter. The SAM base type itself is not part of
   * this model; this is how its values are represented here.
   */
  datatype Base = Eq | Letter(c: char)

  /** The letters with a code of their own, in code order after '=' (code 0). */
  const CodedLetters: string := "ACMGRSVTWYHKDB"

  predicate IsCoded(b: Base)
  {
    b.Eq? || b.c in CodedLetters
  }

  /** `encode_base`: "=ACMGRSVTWYHKDB" map to 0..14 and every other base to 15 (N). */
  function EncodeBase(b: Base): (code: nat)
    ensures code < 16
  {
    match b
    case Eq => 0
    case Letter(c) =>
      match c
      case 'A' => 1
      case 'C' => 2
      case 'M' => 3
      case 'G' => 4
      case 'R' => 5
      case 'S' => 6
      case 'V' => 7
      case 'T' => 8
      case 'W' => 9
      case 'Y' => 10
      case 'H' => 11
      case 'K' => 12
      case 'D' => 13
      case 'B' => 14
      case _ => 15
  }

  /** Reading a code back: 0 is '=', 1..14 index the letters above, 15 is N. */
  function DecodeBase(code: nat): Base
    requires code < 16
  {
    if code == 0 then Eq else if code < 15 then Letter(CodedLetters[code - 1]) else Letter('N')
  }

  /** Exactly the bases without a code of their own are written as 15 (N). */
  lemma EncodeBaseUncoded(b: Base)
    ensures EncodeBase(b) == 15 <==> !IsCoded(b)
  {
    if b.Letter? && b.c in CodedLetters {
      var i :| 0 <= i < |CodedLetters| && CodedLetters[i] == b.c;
      assert EncodeBase(Letter(CodedLetters[i])) == i + 1;
    }
  }

  /** The fifteen listed bases are recovered from their codes; every other base comes back as N. */
  lemma DecodeEncodeBase(b: Base)
    ensures DecodeBase(EncodeBase(b)) == if IsCoded(b) then b else Letter('N')
  {
    if b.Letter? && b.c in CodedLetters {
      var i :| 0 <= i < |CodedLetters| && CodedLetters[i] == b.c;
      assert EncodeBase(Letter(CodedLetters[i])) == i + 1;
    }
  }

  /** The byte for one chunk: left base in the high nibble, right base (or '=') in the low one. */
  function PackPair(l: Base, r: Base): Byte
  {
    EncodeBase(l) * 16 + EncodeBase(r)
  }

  /** The packed form of a sequence, chunk by chunk from the front. */
  function Packed(s: seq<Base>): (r: seq<Byte>)
    ensures |r| == (|s| + 1) / 2
    decreases |s|
  {
    if s == [] then []
    else if |s| == 1 then [PackPair(s[0], Eq)]
    else [PackPair(s[0], s[1])] + Packed(s[2..])
  }

  lemma {:induction false} PackedAppend(a: seq<Base>, b: seq<Base>)
    requires |a| % 2 == 0
    ensures Packed(a + b) == Packed(a) + Packed(b)
    decreases |a|
  {
    if a != [] {
      assert (a + b)[2..] == a[2..] + b;
      PackedAppend(a[2..], b);
    } else {
      assert a + b == b;
    }
  }

  /**
   * `put_sequence`: appends one byte per chunk of two bases to `dst`, padding an odd last chunk
   * with '='.
   */
  method PutSequence(dst: seq<Byte>, sequence: seq<Base>) returns (out: seq<Byte>)
    ensures out == dst + Packed(sequence)
  {
    out := dst;
    var n := |sequence|;
    var k := 0;
    while 2 * k < n
      invariant 2 * k <= n + 1
      invariant out == dst + Packed(sequence[..if 2 * k < n then 2 * k else n])
    {
      var l := sequence[2 * k];
      var r := if 2 * k + 1 < n then sequence[2 * k + 1] else Eq;
      PackedPrefixStep(sequence, k);
      out := out + [PackPair(l, r)];
      k := k + 1;
    }
    assert sequence[..n] == sequence;
  }

  /** Packing one more chunk of two bases, or of the last base, appends its byte. */
  lemma PackedPrefixStep(s: seq<Base>, k: nat)
    requires 2 * k < |s|
    ensures var hi := if 2 * k + 2 <= |s| then 2 * k + 2 else |s|;
      Packed(s[..hi]) == Packed(s[..2 * k]) + [PackPair(s[2 * k], if 2 * k + 1 < |s| then s[2 * k + 1] else Eq)]
  {
    var lo, hi := 2 * k, if 2 * k + 2 <= |s| then 2 * k + 2 else |s|;
    PackedAppend(s[..lo], s[lo..hi]);
    assert s[..lo] + s[lo..hi] == s[..hi];
    if hi == lo + 2 { assert s[lo..hi][2..] == []; }
  }

  /** Byte k of the packed form holds bases 2k and 2k+1, with '=' past the end. */
  lemma {:induction false} PackedAt(s: seq<Base>, k: nat)
    requires k < (|s| + 1) / 2
    ensures Packed(s)[k] == PackPair(s[2 * k], if 2 * k + 1 < |s| then s[2 * k + 1] else Eq)
    decreases |s|
  {
    if k > 0 {
      var t := s[2..];
      PackedAt(t, k - 1);
      assert Packed(s)[k] == Packed(t)[k - 1];
      assert t[2 * (k - 1)] == s[2 * k];
      assert 2 * (k - 1) + 1 < |t| <==> 2 * k + 1 < |s|;
      if 2 * k + 1 < |s| {
        assert t[2 * (k - 1) + 1] == s[2 * k + 1];
      }
    }
  }

  /** Splitting every byte into its two nibbles and decoding them gives the codes back. */
  lemma UnpackNibbles(s: seq<Base>, k: nat)
    requires k < (|s| + 1) / 2
    ensures Packed(s)[k] / 16 == EncodeBase(s[2 * k])
    ensures Packed(s)[k] % 16 == if 2 * k + 1 < |s| then EncodeBase(s[2 * k + 1]) else 0
    ensures DecodeBase(Packed(s)[k] / 16) == if IsCoded(s[2 * k]) then s[2 * k] else Letter('N')
  {
    PackedAt(s, k);
    var l, r := s[2 * k], if 2 * k + 1 < |s| then s[2 * k + 1] else Eq;
    assert PackPair(l, r) / 16 == EncodeBase(l) && PackPair(l, r) % 16 == EncodeBase(r);
    DecodeEncodeBase(l);
  }

  /** The unit-test inputs at sequence.rs:53-55 and 77-79. */
  lemma PackedExamples()
    ensures Packed([]) == []
    ensures Packed([Letter('A'), Letter('C'), Letter('G')]) == [0x12, 0x40]
    ensures Packed([Letter('A'), Letter('C'), Letter('G'), Letter('T')]) == [0x12, 0x48]
  {
    PackedTwo(Letter('A'), Letter('C'), [Letter('G')]);
    PackedTwo(Letter('A'), Letter('C'), [Letter('G'), Letter('T')]);
    PackedTwo(Letter('G'), Letter('T'), []);
    assert EncodeBase(Letter('A')) == 1 && EncodeBase(Letter('C')) == 2;
    assert EncodeBase(Letter('G')) == 4 && EncodeBase(Letter('T')) == 8;
  }

  lemma PackedTwo(l: Base, r: Base, rest: seq<Base>)
    ensures Packed([l, r] + rest) == [PackPair(l, r)] + Packed(rest)
  {
    assert ([l, r] + rest)[2..] == rest;
  }
}
