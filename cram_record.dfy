/**
 * Decoding one CRAM record from the blocks of a slice (the record layout of the CRAM format
 * specification, version 3.0): each data series is read through the encoding the compression
 * header gives it, from the core data block (a bit stream) or from an external block (a byte
 * cursor chosen by its content ID).
 *
 * The core block is modelled as its bits, most significant first, and each external block as the
 * bytes not yet read. `get_itf8`, the canonical Huffman decoder and the checks that make a `Base`,
 * a quality `Score` and a `ReadName` are collaborators given as functions.
 */
module CramRecord {
  import opened Wrappers
  import opened RustNum
  import TagIdsDictionary

  /** The `io::ErrorKind`s of the errors this reader reports. */
  datatype ErrorKind = InvalidData | UnexpectedEof

  /**
   * The data series a record is read from, by their two-letter names in the CRAM format
   * specification: BF BAM bit flags, CF CRAM bit flags, RI reference ID, RL read length, AP
   * alignment start, RG read group, RN read name, MF next mate bit flags, NS next fragment
   * reference ID, NP next mate alignment start, TS template size, NF distance to next fragment, TL
   * tag line, FN number of read features, FC feature codes, FP in-read positions, DL deletion
   * lengths, BB stretches of bases, QQ stretches of quality scores, BS base substitution codes, IN
   * insertions, RS reference skip lengths, PD padding, HC hard clips, SC soft clips, MQ mapping
   * qualities, BA bases, QS quality scores.
   */
  datatype DataSeries =
    | BF | CF | RI | RL | AP | RG | RN | MF | NS | NP | TS | NF | TL
    | FN | FC | FP | DL | BB | QQ | BS | IN | RS | PD | HC | SC | MQ | BA | QS

  /** `io::Error`s by kind, and the `ReadRecordError`s, which are all of kind InvalidData. */
  datatype Error =
    | Io(kind: ErrorKind)
    | MissingDataSeriesEncoding(dataSeries: DataSeries)
    | MissingTagEncoding(key: TagIdsDictionary.Key)
    | MissingExternalBlock(blockContentId: int)

  function KindOf(e: Error): ErrorKind
  {
    if e.Io? then e.kind else InvalidData
  }

  type I32 = n: int | -0x8000_0000 <= n < 0x8000_0000

  const I32_MAX: int := 0x7FFF_FFFF

  /** Two's complement wrap-around to 32 bits: `as i32`, and `i32` arithmetic as a release build does it. */
  function WrapI32(n: int): I32
  {
    (n + 0x8000_0000) % 0x1_0000_0000 - 0x8000_0000
  }

  /** `as u8`: the low 8 bits. */
  function AsU8(n: int): Byte
  {
    n % 0x100
  }

  /** How a data series is stored. Only the first five are read by this reader. */
  datatype Encoding =
    | External(blockContentId: I32)
    | Huffman(alphabet: seq<I32>, bitLens: seq<U32>)
    | Beta(offset: I32, len: U32)
    | ByteArrayLen(lenEncoding: Encoding, valueEncoding: Encoding)
    | ByteArrayStop(stopByte: Byte, blockContentId: I32)
    | Gamma(offset: I32)
    | SubExp(offset: I32, k: I32)
    | Golomb(offset: I32, m: I32)
    | GolombRice(offset: I32, log2m: I32)

  /** The bits of the core block not yet read, and the bytes of each external block not yet read. */
  datatype Streams = Streams(core: seq<bool>, external: map<I32, seq<Byte>>)

  /** `get_itf8`: a value and the bytes of its input left after it. */
  type Itf8Reader = seq<Byte> -> Result<(I32, seq<Byte>), Error>

  /** A canonical Huffman decoder (given the alphabet and bit lengths): a value and the core bits left after it. */
  type HuffmanDecoder = (seq<I32>, seq<U32>, seq<bool>) -> Result<(I32, seq<bool>), Error>

  /** The code this reader calls but that is not part of this model. */
  datatype Collaborators = Collaborators(
    getItf8: Itf8Reader,
    huffman: HuffmanDecoder,
    isBase: Byte -> bool,
    isScore: Byte -> bool,
    isReadName: seq<Byte> -> bool)

  /** The value of `bits`, most significant first. */
  function BitsValue(bits: seq<bool>): nat
  {
    if bits == [] then 0 else 2 * BitsValue(bits[..|bits| - 1]) + (if bits[|bits| - 1] then 1 else 0)
  }

  /** `BitReader::read_u32`: the next `len` core bits, most significant first, kept to 32 bits. */
  function ReadU32Spec(core: seq<bool>, len: nat): (Result<U32, Error>, seq<bool>)
  {
    if |core| < len then (Err(Io(UnexpectedEof)), core)
    else (Ok(BitsValue(core[..len]) % 0x1_0000_0000), core[len..])
  }

  function WithBlock(s: Streams, id: I32, rest: seq<Byte>): Streams
  {
    s.(external := s.external[id := rest])
  }

  /** The encodings `decode_byte` reads; the others are `todo!()`. */
  predicate ByteEncoding(e: Encoding)
  {
    e.External? || e.Huffman?
  }

  /** The encodings `decode_itf8` reads; the others are `todo!()`. */
  predicate Itf8Encoding(e: Encoding)
  {
    e.External? || e.Huffman? || e.Beta?
  }

  /**
   * The encodings `decode_byte_array` reads: External only with a buffer to fill (`buf.unwrap()`),
   * which only a ByteArrayLen gives its value encoding; the others are `todo!()`.
   */
  predicate ByteArrayEncoding(e: Encoding, sized: bool)
  {
    match e
    case External(_) => sized
    case ByteArrayLen(lenEncoding, valueEncoding) => Itf8Encoding(lenEncoding) && ByteArrayEncoding(valueEncoding, true)
    case ByteArrayStop(_, _) => true
    case _ => false
  }

  /** `decode_byte` (record.rs:958-994). */
  function DecodeByteSpec(with: Collaborators, e: Encoding, s: Streams): (Result<Byte, Error>, Streams)
    requires ByteEncoding(e)
  {
    match e
    case External(id) =>
      if id !in s.external then (Err(MissingExternalBlock(id)), s)
      else if |s.external[id]| == 0 then (Err(Io(UnexpectedEof)), s)
      else (Ok(s.external[id][0]), WithBlock(s, id, s.external[id][1..]))
    case Huffman(alphabet, bitLens) =>
      if |alphabet| == 1 then (Ok(AsU8(alphabet[0])), s)
      else
        var d := with.huffman(alphabet, bitLens, s.core);
        if d.Err? then (Err(d.error), s) else (Ok(AsU8(d.value.0)), s.(core := d.value.1))
  }

  /** `decode_itf8` (record.rs:996-1029); `i as i32 - offset` wraps as a release build does. */
  function DecodeItf8Spec(with: Collaborators, e: Encoding, s: Streams): (Result<I32, Error>, Streams)
    requires Itf8Encoding(e)
  {
    match e
    case External(id) =>
      if id !in s.external then (Err(MissingExternalBlock(id)), s)
      else
        var d := with.getItf8(s.external[id]);
        if d.Err? then (Err(d.error), s) else (Ok(d.value.0), WithBlock(s, id, d.value.1))
    case Huffman(alphabet, bitLens) =>
      if |alphabet| == 1 then (Ok(alphabet[0]), s)
      else
        var d := with.huffman(alphabet, bitLens, s.core);
        if d.Err? then (Err(d.error), s) else (Ok(d.value.0), s.(core := d.value.1))
    case Beta(offset, len) =>
      var (i, rest) := ReadU32Spec(s.core, len);
      if i.Err? then (Err(i.error), s) else (Ok(WrapI32(WrapI32(i.value) - offset)), s.(core := rest))
  }

  /** The index of the first `b` in `src`. */
  function IndexOf(src: seq<Byte>, b: Byte): (i: Option<nat>)
    ensures i.Some? ==> i.value < |src| && src[i.value] == b && forall j :: 0 <= j < i.value ==> src[j] != b
    ensures i.None? <==> b !in src
  {
    if src == [] then None
    else if src[0] == b then Some(0)
    else
      var j := IndexOf(src[1..], b);
      assert src == [src[0]] + src[1..];
      if j.None? then None else Some(j.value + 1)
  }

  /**
   * `decode_byte_array` (record.rs:1031-1105); `len` is the length of the buffer it is given. A
   * negative decoded length is InvalidData (see ByteArrayLenRequest for the code as written).
   */
  function DecodeByteArraySpec(with: Collaborators, e: Encoding, s: Streams, len: Option<nat>)
    : (Result<seq<Byte>, Error>, Streams)
    requires ByteArrayEncoding(e, len.Some?)
    decreases e
  {
    match e
    case External(id) =>
      if id !in s.external then (Err(MissingExternalBlock(id)), s)
      else if |s.external[id]| < len.value then (Err(Io(UnexpectedEof)), s)
      else (Ok(s.external[id][..len.value]), WithBlock(s, id, s.external[id][len.value..]))
    case ByteArrayLen(lenEncoding, valueEncoding) =>
      var (n, s1) := DecodeItf8Spec(with, lenEncoding, s);
      if n.Err? then (Err(n.error), s1)
      else if n.value < 0 then (Err(Io(InvalidData)), s1)
      else DecodeByteArraySpec(with, valueEncoding, s1, Some(n.value))
    case ByteArrayStop(stopByte, id) =>
      if id !in s.external then (Err(MissingExternalBlock(id)), s)
      else
        var i := IndexOf(s.external[id], stopByte);
        if i.None? then (Err(Io(InvalidData)), s)
        else (Ok(s.external[id][..i.value]), WithBlock(s, id, s.external[id][i.value + 1..]))
  }

  /** Which of the three decoders a data series is read with. */
  datatype Decoder = ByteDecoder | Itf8Decoder | ByteArrayDecoder

  function DecoderOf(ds: DataSeries): Decoder
  {
    match ds
    case FC | BS | BA | QS => ByteDecoder
    case RN | BB | QQ | IN | SC => ByteArrayDecoder
    case _ => Itf8Decoder
  }

  predicate Decodes(ds: DataSeries, e: Encoding)
  {
    match DecoderOf(ds)
    case ByteDecoder => ByteEncoding(e)
    case Itf8Decoder => Itf8Encoding(e)
    case ByteArrayDecoder => ByteArrayEncoding(e, false)
  }

  /** What the record reader uses of the compression header. */
  datatype CompressionHeader = CompressionHeader(
    readNamesIncluded: bool,
    apDataSeriesDelta: bool,
    tagIdsDictionary: seq<seq<TagIdsDictionary.Key>>,
    encodings: map<DataSeries, Encoding>,
    tagEncodings: map<TagIdsDictionary.Key, Encoding>)

  /**
   * The series whose encoding the header always has (the others are optional), and only encodings
   * the decoders read.
   */
  predicate Supported(h: CompressionHeader)
  {
    && BF in h.encodings && CF in h.encodings && RL in h.encodings
    && AP in h.encodings && RG in h.encodings && TL in h.encodings
    && (forall ds :: ds in h.encodings ==> Decodes(ds, h.encodings[ds]))
    && (forall k :: k in h.tagEncodings ==> ByteArrayEncoding(h.tagEncodings[k], false))
  }

  /** The slice's reference: one reference, none (unmapped, -1), or many (each record has its own). */
  datatype ReferenceSequenceId = Single(id: I32) | Unmapped | Many

  datatype Context = Context(header: CompressionHeader, referenceSequenceId: ReferenceSequenceId, with: Collaborators)

  /** An encoding lookup, then `decode_itf8`. */
  function Itf8Spec(x: Context, ds: DataSeries, s: Streams): (Result<I32, Error>, Streams)
    requires Supported(x.header) && DecoderOf(ds) == Itf8Decoder
  {
    if ds in x.header.encodings then DecodeItf8Spec(x.with, x.header.encodings[ds], s)
    else (Err(MissingDataSeriesEncoding(ds)), s)
  }

  /** An encoding lookup, then `decode_byte`. */
  function ByteSpec(x: Context, ds: DataSeries, s: Streams): (Result<Byte, Error>, Streams)
    requires Supported(x.header) && DecoderOf(ds) == ByteDecoder
  {
    if ds in x.header.encodings then DecodeByteSpec(x.with, x.header.encodings[ds], s)
    else (Err(MissingDataSeriesEncoding(ds)), s)
  }

  /** An encoding lookup, then `decode_byte_array` with no buffer. */
  function ByteArraySpec(x: Context, ds: DataSeries, s: Streams): (Result<seq<Byte>, Error>, Streams)
    requires Supported(x.header) && DecoderOf(ds) == ByteArrayDecoder
  {
    if ds in x.header.encodings then DecodeByteArraySpec(x.with, x.header.encodings[ds], s, None)
    else (Err(MissingDataSeriesEncoding(ds)), s)
  }

  /** `usize::try_from` of an `i32`: a negative value is InvalidData. */
  function ToUsize(r: Result<I32, Error>): Result<nat, Error>
  {
    if r.Err? then Err(r.error) else if r.value < 0 then Err(Io(InvalidData)) else Ok(r.value)
  }

  /** `u8::try_from` of an `i32`. */
  function ToU8(r: Result<I32, Error>): Result<Byte, Error>
  {
    if r.Err? then Err(r.error) else if 0 <= r.value <= U8_MAX then Ok(r.value) else Err(Io(InvalidData))
  }

  type U16 = n: int | 0 <= n < 0x1_0000

  /** `u16::try_from` of an `i32`. */
  function ToU16(r: Result<I32, Error>): Result<U16, Error>
  {
    if r.Err? then Err(r.error) else if 0 <= r.value <= U16_MAX then Ok(r.value) else Err(Io(InvalidData))
  }

  /** The -1 sentinel (an unmapped reference, no read group) is none; another negative value is InvalidData. */
  function ToOptionalUsize(r: Result<I32, Error>): (o: Result<Option<nat>, Error>)
    ensures o == Ok(None) <==> r == Ok(-1)
    ensures o.Ok? <==> r.Ok? && r.value >= -1
    ensures o.Ok? && o.value.Some? ==> o.value.value == r.value
    ensures r.Ok? && r.value < -1 ==> o == Err(Io(InvalidData))
  {
    if r.Err? then Err(r.error)
    else if r.value == -1 then Ok(None)
    else if r.value < 0 then Err(Io(InvalidData))
    else Ok(Some(r.value))
  }

  /** A 1-based position. */
  type Position = n: int | 1 <= n witness 1

  /** `Position::new`: 0 is no position. */
  function ToPosition(n: nat): Option<Position>
  {
    if n == 0 then None else Some(n)
  }

  /** The mapping quality: a `u8`, whose MISSING value 255 is none. */
  function ToMappingQuality(r: Result<I32, Error>): (q: Result<Option<Byte>, Error>)
    ensures q == Ok(None) <==> r == Ok(255)
    ensures q.Ok? <==> r.Ok? && 0 <= r.value <= U8_MAX
    ensures q.Ok? && q.value.Some? ==> q.value.value == r.value < 255
    ensures r.Ok? && !(0 <= r.value <= U8_MAX) ==> q == Err(Io(InvalidData))
  {
    var q := ToU8(r);
    if q.Err? then Err(q.error) else if q.value == 255 then Ok(None) else Ok(Some(q.value))
  }

  /** A read feature: where in the read it applies and what it holds. */
  datatype Feature =
    | Bases(position: Position, bases: seq<Byte>)
    | Scores(position: Position, qualityScores: seq<Byte>)
    | ReadBase(position: Position, base: Byte, qualityScore: Byte)
    | Substitution(position: Position, code: Byte)
    | Insertion(position: Position, bases: seq<Byte>)
    | Deletion(position: Position, len: nat)
    | InsertBase(position: Position, base: Byte)
    | QualityScore(position: Position, qualityScore: Byte)
    | ReferenceSkip(position: Position, len: nat)
    | SoftClip(position: Position, bases: seq<Byte>)
    | Padding(position: Position, len: nat)
    | HardClip(position: Position, len: nat)

  // The feature codes, as the CRAM format specification assigns them.
  const CodeBases: Byte := 0x62         // 'b'
  const CodeScores: Byte := 0x71        // 'q'
  const CodeReadBase: Byte := 0x42      // 'B'
  const CodeSubstitution: Byte := 0x58  // 'X'
  const CodeInsertion: Byte := 0x49     // 'I'
  const CodeDeletion: Byte := 0x44      // 'D'
  const CodeInsertBase: Byte := 0x69    // 'i'
  const CodeQualityScore: Byte := 0x51  // 'Q'
  const CodeReferenceSkip: Byte := 0x4e // 'N'
  const CodeSoftClip: Byte := 0x53      // 'S'
  const CodePadding: Byte := 0x50       // 'P'
  const CodeHardClip: Byte := 0x48      // 'H'

  /** `feature::Code::try_from`. */
  predicate IsFeatureCode(b: Byte)
  {
    || b == CodeBases || b == CodeScores || b == CodeReadBase || b == CodeSubstitution
    || b == CodeInsertion || b == CodeDeletion || b == CodeInsertBase || b == CodeQualityScore
    || b == CodeReferenceSkip || b == CodeSoftClip || b == CodePadding || b == CodeHardClip
  }

  /** A record as read, before mates are resolved. Tag fields keep the bytes their encoding decoded. */
  datatype Record = Record(
    bamBitFlags: bv16,
    cramBitFlags: bv8,
    referenceSequenceId: Option<nat>,
    readLength: nat,
    alignmentStart: Option<Position>,
    readGroup: Option<nat>,
    readName: Option<seq<Byte>>,
    nextMateBitFlags: bv8,
    nextFragmentReferenceSequenceId: Option<nat>,
    nextMateAlignmentStart: Option<Position>,
    templateSize: I32,
    distanceToNextFragment: Option<nat>,
    tags: seq<(TagIdsDictionary.Key, seq<Byte>)>,
    bases: seq<Byte>,
    features: seq<Feature>,
    mappingQuality: Option<Byte>,
    qualityScores: seq<Byte>)

  /** `Record { bam_bit_flags, cram_bit_flags, ..Default::default() }`. */
  function NewRecord(bamBitFlags: bv16, cramBitFlags: bv8): Record
  {
    Record(bamBitFlags, cramBitFlags, None, 0, None, None, None, 0, None, None, 0, None, [], [], [], None, [])
  }

  // Flag bits, as the SAM format specification (BAM flags) and the CRAM format specification
  // (CRAM and next mate flags) define them.
  const BamUnmapped: bv16 := 0x04
  const BamMateUnmapped: bv16 := 0x08
  const BamMateReverseComplemented: bv16 := 0x20
  const CramScoresStoredAsArray: bv8 := 0x01
  const CramDetached: bv8 := 0x02
  const CramHasMateDownstream: bv8 := 0x04
  const MateOnNegativeStrand: bv8 := 0x01
  const MateUnmapped: bv8 := 0x02

  predicate HasCramFlag(flags: bv8, flag: bv8)
  {
    flags & flag != 0
  }

  predicate HasBamFlag(flags: bv16, flag: bv16)
  {
    flags & flag != 0
  }

  /**
   * The BAM flags once a detached record's next mate flags are known: a mate on the negative
   * strand sets "mate reverse complemented" and an unmapped mate sets "mate unmapped".
   */
  function MateBamFlags(bamFlags: bv16, mateFlags: bv8): (flags: bv16)
    ensures HasBamFlag(flags, BamMateReverseComplemented)
      <==> HasBamFlag(bamFlags, BamMateReverseComplemented) || HasCramFlag(mateFlags, MateOnNegativeStrand)
    ensures HasBamFlag(flags, BamMateUnmapped)
      <==> HasBamFlag(bamFlags, BamMateUnmapped) || HasCramFlag(mateFlags, MateUnmapped)
    ensures flags & 0xFFD7 == bamFlags & 0xFFD7 // every other bit is kept
  {
    var reverse := HasCramFlag(mateFlags, MateOnNegativeStrand);
    var unmapped := HasCramFlag(mateFlags, MateUnmapped);
    if reverse && unmapped then bamFlags | 0x28
    else if reverse then bamFlags | BamMateReverseComplemented
    else if unmapped then bamFlags | BamMateUnmapped
    else bamFlags
  }

  /** A read's outcome and the streams after it. */
  type Step<T> = (Result<T, Error>, Streams)

  /** Items read before the rest of a sequence: prefixed to it when the rest succeeds. */
  function Prepend<T>(items: seq<T>, r: Step<seq<T>>): Step<seq<T>>
  {
    if r.0.Err? then r else (Ok(items + r.0.value), r.1)
  }

  lemma PrependEmpty<T>(r: Step<seq<T>>)
    ensures Prepend([], r) == r
  {
    if r.0.Ok? {
      assert [] + r.0.value == r.0.value;
    }
  }

  lemma PrependTwice<T>(a: seq<T>, b: seq<T>, r: Step<seq<T>>)
    ensures Prepend(a, Prepend(b, r)) == Prepend(a + b, r)
  {
    if r.0.Ok? {
      assert a + (b + r.0.value) == (a + b) + r.0.value;
    }
  }

  /** An `itf8` series converted with `usize::try_from`. */
  function UsizeSpec(x: Context, ds: DataSeries, s: Streams): Step<nat>
    requires Supported(x.header) && DecoderOf(ds) == Itf8Decoder
  {
    var (n, s1) := Itf8Spec(x, ds, s);
    (ToUsize(n), s1)
  }

  /** Bytes of the base series (BA, BB, IN, SC) must be bases; those of QS and QQ must be scores. */
  predicate ValidByte(with: Collaborators, ds: DataSeries, b: Byte)
  {
    if ds == QS || ds == QQ then with.isScore(b) else with.isBase(b)
  }

  predicate AllValid(with: Collaborators, ds: DataSeries, bytes: seq<Byte>)
  {
    forall i :: 0 <= i < |bytes| ==> ValidByte(with, ds, bytes[i])
  }

  /** `read_base` (BA) and `read_quality_score` (QS): `Base::try_from` and `Score::try_from` of a byte. */
  function CheckedByteSpec(x: Context, ds: DataSeries, s: Streams): Step<Byte>
    requires Supported(x.header) && (ds == BA || ds == QS)
  {
    var (b, s1) := ByteSpec(x, ds, s);
    if b.Err? then (Err(b.error), s1)
    else if ValidByte(x.with, ds, b.value) then (Ok(b.value), s1)
    else (Err(Io(InvalidData)), s1)
  }

  /** Stretches of bases (BB), of scores (QQ), insertions (IN) and soft clips (SC): every byte checked. */
  function CheckedBytesSpec(x: Context, ds: DataSeries, s: Streams): Step<seq<Byte>>
    requires Supported(x.header) && (ds == BB || ds == QQ || ds == IN || ds == SC)
  {
    var (bytes, s1) := ByteArraySpec(x, ds, s);
    if bytes.Err? then (Err(bytes.error), s1)
    else if AllValid(x.with, ds, bytes.value) then (Ok(bytes.value), s1)
    else (Err(Io(InvalidData)), s1)
  }

  /** `n` checked bytes of BA or QS, one after the other, stopping at the first error. */
  function ManySpec(x: Context, ds: DataSeries, n: nat, s: Streams): Step<seq<Byte>>
    requires Supported(x.header) && (ds == BA || ds == QS)
    decreases n
  {
    if n == 0 then (Ok([]), s)
    else
      var (b, s1) := CheckedByteSpec(x, ds, s);
      if b.Err? then (Err(b.error), s1) else Prepend([b.value], ManySpec(x, ds, n - 1, s1))
  }

  /** `read_reference_id` for a slice of many references; otherwise the slice's own reference. */
  function ReferenceIdSpec(x: Context, s: Streams): Step<Option<nat>>
    requires Supported(x.header)
  {
    match x.referenceSequenceId
    case Many =>
      var (n, s1) := Itf8Spec(x, RI, s);
      (ToOptionalUsize(n), s1)
    case Single(id) => (ToOptionalUsize(Ok(id)), s)
    case Unmapped => (ToOptionalUsize(Ok(-1)), s)
  }

  /**
   * `read_alignment_start`: AP is the start itself, or, when the header says AP is a delta, the
   * difference from the previous record's start (0 when there is none), added in `i32`.
   */
  function AlignmentStartSpec(x: Context, prev: Option<Position>, s: Streams): Step<Option<Position>>
    requires Supported(x.header)
  {
    var (v, s1) := Itf8Spec(x, AP, s);
    if v.Err? then (Err(v.error), s1)
    else if x.header.apDataSeriesDelta then
      var p := if prev.Some? then prev.value else 0;
      if p > I32_MAX then (Err(Io(InvalidData)), s1)
      else (ToOptionalPosition(WrapI32(p + v.value)), s1)
    else (ToOptionalPosition(v.value), s1)
  }

  /** `usize::try_from(n).map(Position::new)`. */
  function ToOptionalPosition(n: int): (r: Result<Option<Position>, Error>)
    ensures r.Ok? <==> n >= 0
    ensures r.Ok? ==> (r.value.None? <==> n == 0) && (r.value.Some? ==> r.value.value == n)
  {
    if n < 0 then Err(Io(InvalidData)) else Ok(ToPosition(n))
  }

  /** `read_positional_data`: reference, read length, alignment start and read group. */
  function PositionalDataSpec(x: Context, prev: Option<Position>, record: Record, s: Streams): Step<Record>
    requires Supported(x.header)
  {
    var (id, s1) := ReferenceIdSpec(x, s);
    if id.Err? then (Err(id.error), s1)
    else
      var (len, s2) := UsizeSpec(x, RL, s1);
      if len.Err? then (Err(len.error), s2)
      else
        var (start, s3) := AlignmentStartSpec(x, prev, s2);
        if start.Err? then (Err(start.error), s3)
        else
          var (group, s4) := Itf8Spec(x, RG, s3);
          var g := ToOptionalUsize(group);
          if g.Err? then (Err(g.error), s4)
          else (Ok(record.(referenceSequenceId := id.value, readLength := len.value,
                           alignmentStart := start.value, readGroup := g.value)), s4)
  }

  /** `read_read_name`: "*" is a missing name; any other bytes must make a read name. */
  function ReadNameSpec(x: Context, s: Streams): Step<Option<seq<Byte>>>
    requires Supported(x.header)
  {
    var (name, s1) := ByteArraySpec(x, RN, s);
    if name.Err? then (Err(name.error), s1)
    else if name.value == [0x2a] then (Ok(None), s1)
    else if x.with.isReadName(name.value) then (Ok(Some(name.value)), s1)
    else (Err(Io(InvalidData)), s1)
  }

  /** `read_read_names`: a name is read here only when the header says names are included. */
  function ReadNamesSpec(x: Context, record: Record, s: Streams): Step<Record>
    requires Supported(x.header)
  {
    if x.header.readNamesIncluded then
      var (name, s1) := ReadNameSpec(x, s);
      if name.Err? then (Err(name.error), s1) else (Ok(record.(readName := name.value)), s1)
    else (Ok(record), s)
  }

  /** `read_next_mate_bit_flags`: MF as a `u8`. */
  function NextMateBitFlagsSpec(x: Context, s: Streams): Step<bv8>
    requires Supported(x.header)
  {
    var (n, s1) := Itf8Spec(x, MF, s);
    var flags := ToU8(n);
    if flags.Err? then (Err(flags.error), s1) else (Ok(flags.value as bv8), s1)
  }

  /**
   * `read_mate_data`: a detached record reads its mate's flags, its name (when names are not
   * otherwise included), reference, start and template size; a record whose mate is downstream
   * reads the distance to it; any other record reads nothing.
   */
  function MateDataSpec(x: Context, record: Record, bamFlags: bv16, flags: bv8, s: Streams): Step<Record>
    requires Supported(x.header)
  {
    if HasCramFlag(flags, CramDetached) then
      var (mateFlags, s1) := NextMateBitFlagsSpec(x, s);
      if mateFlags.Err? then (Err(mateFlags.error), s1)
      else
        var mateBits := mateFlags.value;
        var r1 := record.(nextMateBitFlags := mateBits, bamBitFlags := MateBamFlags(bamFlags, mateBits));
        if x.header.readNamesIncluded then MateSpec(x, r1, s1)
        else
          var (name, s2) := ReadNameSpec(x, s1);
          if name.Err? then (Err(name.error), s2) else MateSpec(x, r1.(readName := name.value), s2)
    else if HasCramFlag(flags, CramHasMateDownstream) then
      var (d, s1) := UsizeSpec(x, NF, s);
      if d.Err? then (Err(d.error), s1) else (Ok(record.(distanceToNextFragment := Some(d.value))), s1)
    else (Ok(record), s)
  }

  /** The mate's reference (-1 being none), its alignment start (0 being none) and the template size. */
  function MateSpec(x: Context, record: Record, s: Streams): Step<Record>
    requires Supported(x.header)
  {
    var (ns, s1) := Itf8Spec(x, NS, s);
    var id := ToOptionalUsize(ns);
    if id.Err? then (Err(id.error), s1)
    else
      var (np, s2) := UsizeSpec(x, NP, s1);
      if np.Err? then (Err(np.error), s2)
      else
        var (ts, s3) := Itf8Spec(x, TS, s2);
        if ts.Err? then (Err(ts.error), s3)
        else (Ok(record.(nextFragmentReferenceSequenceId := id.value,
                         nextMateAlignmentStart := ToPosition(np.value), templateSize := ts.value)), s3)
  }

  /** The fields of one tag line, each the bytes its tag encoding decodes. */
  function TagFieldsSpec(x: Context, keys: seq<TagIdsDictionary.Key>, s: Streams): Step<seq<(TagIdsDictionary.Key, seq<Byte>)>>
    requires Supported(x.header)
    decreases |keys|
  {
    if keys == [] then (Ok([]), s)
    else if keys[0] !in x.header.tagEncodings then (Err(MissingTagEncoding(keys[0])), s)
    else
      var (data, s1) := DecodeByteArraySpec(x.with, x.header.tagEncodings[keys[0]], s, None);
      if data.Err? then (Err(data.error), s1)
      else Prepend([(keys[0], data.value)], TagFieldsSpec(x, keys[1..], s1))
  }

  /** `read_tag_data`: TL picks a line of the tag IDs dictionary, whose fields are then read in order. */
  function TagDataSpec(x: Context, s: Streams): Step<seq<(TagIdsDictionary.Key, seq<Byte>)>>
    requires Supported(x.header)
  {
    var (line, s1) := UsizeSpec(x, TL, s);
    if line.Err? then (Err(line.error), s1)
    else if line.value >= |x.header.tagIdsDictionary| then (Err(Io(InvalidData)), s1)
    else TagFieldsSpec(x, x.header.tagIdsDictionary[line.value], s1)
  }

  /** `read_feature_code`: an FC byte that must be one of the twelve codes. */
  function FeatureCodeSpec(x: Context, s: Streams): Step<Byte>
    requires Supported(x.header)
  {
    var (code, s1) := ByteSpec(x, FC, s);
    if code.Err? then (Err(code.error), s1)
    else if IsFeatureCode(code.value) then (Ok(code.value), s1)
    else (Err(Io(InvalidData)), s1)
  }

  /** The data series a feature's value is read from. */
  function FeatureSeries(code: Byte): DataSeries
    requires IsFeatureCode(code)
  {
    if code == CodeBases then BB
    else if code == CodeScores then QQ
    else if code == CodeReadBase then BA
    else if code == CodeSubstitution then BS
    else if code == CodeInsertion then IN
    else if code == CodeDeletion then DL
    else if code == CodeInsertBase then BA
    else if code == CodeQualityScore then QS
    else if code == CodeReferenceSkip then RS
    else if code == CodeSoftClip then SC
    else if code == CodePadding then PD
    else HC
  }

  /** The codes whose value is a checked byte array: bases, scores, insertion, soft clip. */
  predicate IsBytesCode(code: Byte)
  {
    code == CodeBases || code == CodeScores || code == CodeInsertion || code == CodeSoftClip
  }

  /** The codes whose value is a length: deletion, reference skip, padding, hard clip. */
  predicate IsLengthCode(code: Byte)
  {
    code == CodeDeletion || code == CodeReferenceSkip || code == CodePadding || code == CodeHardClip
  }

  function BytesFeature(code: Byte, position: Position, bytes: seq<Byte>): Feature
    requires IsBytesCode(code)
  {
    if code == CodeBases then Bases(position, bytes)
    else if code == CodeScores then Scores(position, bytes)
    else if code == CodeInsertion then Insertion(position, bytes)
    else SoftClip(position, bytes)
  }

  function LengthFeature(code: Byte, position: Position, len: nat): Feature
    requires IsLengthCode(code)
  {
    if code == CodeDeletion then Deletion(position, len)
    else if code == CodeReferenceSkip then ReferenceSkip(position, len)
    else if code == CodePadding then Padding(position, len)
    else HardClip(position, len)
  }

  /**
   * What follows a feature's code and position: a read base is a base then a score, a
   * substitution an unchecked code byte, an inserted base or a quality score one checked byte,
   * and the others a checked byte array or a length from the code's own series.
   */
  function FeatureBodySpec(x: Context, code: Byte, position: Position, s: Streams): Step<Feature>
    requires Supported(x.header) && IsFeatureCode(code)
  {
    if code == CodeReadBase then
      var (base, s1) := CheckedByteSpec(x, BA, s);
      if base.Err? then (Err(base.error), s1)
      else
        var (score, s2) := CheckedByteSpec(x, QS, s1);
        if score.Err? then (Err(score.error), s2) else (Ok(ReadBase(position, base.value, score.value)), s2)
    else if code == CodeSubstitution then
      var (c, s1) := ByteSpec(x, BS, s);
      if c.Err? then (Err(c.error), s1) else (Ok(Substitution(position, c.value)), s1)
    else if code == CodeInsertBase || code == CodeQualityScore then
      var (b, s1) := CheckedByteSpec(x, FeatureSeries(code), s);
      if b.Err? then (Err(b.error), s1)
      else (Ok(if code == CodeInsertBase then InsertBase(position, b.value) else QualityScore(position, b.value)), s1)
    else if IsBytesCode(code) then
      var (bytes, s1) := CheckedBytesSpec(x, FeatureSeries(code), s);
      if bytes.Err? then (Err(bytes.error), s1) else (Ok(BytesFeature(code, position, bytes.value)), s1)
    else
      var (len, s1) := UsizeSpec(x, FeatureSeries(code), s);
      if len.Err? then (Err(len.error), s1) else (Ok(LengthFeature(code, position, len.value)), s1)
  }

  /**
   * `read_feature`: a code, then a position given as a delta from the previous feature's; a
   * position of 0 is InvalidData.
   */
  function FeatureSpec(x: Context, prev: nat, s: Streams): Step<Feature>
    requires Supported(x.header)
  {
    var (code, s1) := FeatureCodeSpec(x, s);
    if code.Err? then (Err(code.error), s1)
    else
      var (delta, s2) := UsizeSpec(x, FP, s1);
      if delta.Err? then (Err(delta.error), s2)
      else if prev + delta.value == 0 then (Err(Io(InvalidData)), s2)
      else FeatureBodySpec(x, code.value, prev + delta.value, s2)
  }

  /** `n` features, each placed relative to the one before it (the first relative to `prev`). */
  function FeaturesSpec(x: Context, n: nat, prev: nat, s: Streams): Step<seq<Feature>>
    requires Supported(x.header)
    decreases n
  {
    if n == 0 then (Ok([]), s)
    else
      var (f, s1) := FeatureSpec(x, prev, s);
      if f.Err? then (Err(f.error), s1) else Prepend([f.value], FeaturesSpec(x, n - 1, f.value.position, s1))
  }

  /** `read_mapping_quality`: MQ as a `u8`, 255 being no quality. */
  function MappingQualitySpec(x: Context, s: Streams): Step<Option<Byte>>
    requires Supported(x.header)
  {
    var (n, s1) := Itf8Spec(x, MQ, s);
    (ToMappingQuality(n), s1)
  }

  /** The quality scores of a read of `readLength` bases when the CRAM flags store them as an array. */
  function ScoresSpec(x: Context, record: Record, flags: bv8, readLength: nat, s: Streams): Step<Record>
    requires Supported(x.header)
  {
    if HasCramFlag(flags, CramScoresStoredAsArray) then
      var (scores, s1) := ManySpec(x, QS, readLength, s);
      if scores.Err? then (Err(scores.error), s1) else (Ok(record.(qualityScores := record.qualityScores + scores.value)), s1)
    else (Ok(record), s)
  }

  /** `read_mapped_read`: the features (FN of them, from position 0), the mapping quality, the scores. */
  function MappedReadSpec(x: Context, record: Record, flags: bv8, readLength: nat, s: Streams): Step<Record>
    requires Supported(x.header)
  {
    var (n, s1) := UsizeSpec(x, FN, s);
    if n.Err? then (Err(n.error), s1)
    else
      var (features, s2) := FeaturesSpec(x, n.value, 0, s1);
      if features.Err? then (Err(features.error), s2)
      else
        var (quality, s3) := MappingQualitySpec(x, s2);
        if quality.Err? then (Err(quality.error), s3)
        else ScoresSpec(x, record.(features := record.features + features.value, mappingQuality := quality.value),
                        flags, readLength, s3)
  }

  /** `read_unmapped_read`: `readLength` bases, then the scores. */
  function UnmappedReadSpec(x: Context, record: Record, flags: bv8, readLength: nat, s: Streams): Step<Record>
    requires Supported(x.header)
  {
    var (bases, s1) := ManySpec(x, BA, readLength, s);
    if bases.Err? then (Err(bases.error), s1)
    else ScoresSpec(x, record.(bases := record.bases + bases.value), flags, readLength, s1)
  }

  /** `read_bam_bit_flags`: BF as a `u16`. */
  function BamBitFlagsSpec(x: Context, s: Streams): Step<bv16>
    requires Supported(x.header)
  {
    var (n, s1) := Itf8Spec(x, BF, s);
    var flags := ToU16(n);
    if flags.Err? then (Err(flags.error), s1) else (Ok(flags.value as bv16), s1)
  }

  /** `read_cram_bit_flags`: CF as a `u8`. */
  function CramBitFlagsSpec(x: Context, s: Streams): Step<bv8>
    requires Supported(x.header)
  {
    var (n, s1) := Itf8Spec(x, CF, s);
    var flags := ToU8(n);
    if flags.Err? then (Err(flags.error), s1) else (Ok(flags.value as bv8), s1)
  }

  /** The fields of `read_record` before the tags: positional data, the name, mate data. */
  function FieldsSpec(x: Context, prev: Option<Position>, record: Record, bamFlags: bv16, flags: bv8, s: Streams): Step<Record>
    requires Supported(x.header)
  {
    var (r1, s1) := PositionalDataSpec(x, prev, record, s);
    if r1.Err? then (Err(r1.error), s1)
    else
      var (r2, s2) := ReadNamesSpec(x, r1.value, s1);
      if r2.Err? then (Err(r2.error), s2) else MateDataSpec(x, r2.value, bamFlags, flags, s2)
  }

  /** The tags of `read_record`, then the read itself, as an unmapped or a mapped read by the BAM flags. */
  function TagsAndReadSpec(x: Context, record: Record, bamFlags: bv16, flags: bv8, readLength: nat, s: Streams): Step<Record>
    requires Supported(x.header)
  {
    var (tags, s1) := TagDataSpec(x, s);
    if tags.Err? then (Err(tags.error), s1)
    else if HasBamFlag(bamFlags, BamUnmapped) then UnmappedReadSpec(x, record.(tags := tags.value), flags, readLength, s1)
    else MappedReadSpec(x, record.(tags := tags.value), flags, readLength, s1)
  }

  /**
   * `read_record`: the BAM and CRAM flags, the fields, the tags and the read; `prev` is the
   * previous record's alignment start. The read length is the one the positional data read, which
   * names and mate data leave as it is.
   */
  function RecordSpec(x: Context, prev: Option<Position>, s: Streams): Step<Record>
    requires Supported(x.header)
  {
    var (bamFlags, s1) := BamBitFlagsSpec(x, s);
    if bamFlags.Err? then (Err(bamFlags.error), s1)
    else
      var (flags, s2) := CramBitFlagsSpec(x, s1);
      if flags.Err? then (Err(flags.error), s2)
      else
        var (record, s3) := FieldsSpec(x, prev, NewRecord(bamFlags.value, flags.value), bamFlags.value, flags.value, s2);
        if record.Err? then (Err(record.error), s3)
        else TagsAndReadSpec(x, record.value, bamFlags.value, flags.value, record.value.readLength, s3)
  }

  /** `2^n`. */
  function Pow2(n: nat): (p: nat)
    ensures p >= 1
  {
    if n == 0 then 1 else 2 * Pow2(n - 1)
  }

  /** The `len` low bits of `v`, most significant first: what BitsValue reads back. */
  function BitsOf(v: nat, len: nat): (bits: seq<bool>)
    ensures |bits| == len
  {
    if len == 0 then [] else BitsOf(v / 2, len - 1) + [v % 2 == 1]
  }

  /** Reading back the bits of a value that fits in `len` bits gives the value. */
  lemma {:induction false} BitsValueOf(v: nat, len: nat)
    requires v < Pow2(len)
    ensures BitsValue(BitsOf(v, len)) == v
  {
    if len > 0 {
      var bits := BitsOf(v, len);
      assert bits[..len - 1] == BitsOf(v / 2, len - 1);
      BitsValueOf(v / 2, len - 1);
    }
  }

  /** Wrapping a `u32` to `i32` before or after a subtraction gives the same `i32`. */
  lemma WrapI32Sub(a: U32, b: I32)
    ensures WrapI32(WrapI32(a) - b) == WrapI32(a - b)
  {
    if a >= 0x8000_0000 {
      assert WrapI32(a) == a - 0x1_0000_0000;
      var y := a - b + 0x8000_0000;
      if y >= 0x1_0000_0000 {
        assert y % 0x1_0000_0000 == y - 0x1_0000_0000;
      } else {
        assert (y - 0x1_0000_0000) % 0x1_0000_0000 == y;
      }
    }
  }

  /** The core and external readers of a slice. */
  class BitReader {
    var bits: seq<bool>

    constructor New(bits: seq<bool>)
      ensures this.bits == bits
    {
      this.bits := bits;
    }
  }

  class ExternalDataReaders {
    var blocks: map<I32, seq<Byte>>

    constructor New(blocks: map<I32, seq<Byte>>)
      ensures this.blocks == blocks
    {
      this.blocks := blocks;
    }
  }

  function StreamsOf(core: BitReader, external: ExternalDataReaders): Streams
    reads core, external
  {
    Streams(core.bits, external.blocks)
  }

  /** `decode_byte` on the readers themselves. */
  method DecodeByte(with: Collaborators, e: Encoding, core: BitReader, external: ExternalDataReaders)
    returns (r: Result<Byte, Error>)
    requires ByteEncoding(e)
    modifies core, external
    ensures (r, StreamsOf(core, external)) == DecodeByteSpec(with, e, old(StreamsOf(core, external)))
  {
    match e
    case External(id) =>
      if id !in external.blocks {
        return Err(MissingExternalBlock(id));
      }
      var src := external.blocks[id];
      if |src| == 0 {
        return Err(Io(UnexpectedEof));
      }
      r := Ok(src[0]);
      external.blocks := external.blocks[id := src[1..]];
    case Huffman(alphabet, bitLens) =>
      if |alphabet| == 1 {
        return Ok(AsU8(alphabet[0]));
      }
      var d := with.huffman(alphabet, bitLens, core.bits);
      if d.Err? {
        return Err(d.error);
      }
      r := Ok(AsU8(d.value.0));
      core.bits := d.value.1;
  }

  /** `decode_itf8` on the readers themselves. */
  method DecodeItf8(with: Collaborators, e: Encoding, core: BitReader, external: ExternalDataReaders)
    returns (r: Result<I32, Error>)
    requires Itf8Encoding(e)
    modifies core, external
    ensures (r, StreamsOf(core, external)) == DecodeItf8Spec(with, e, old(StreamsOf(core, external)))
  {
    match e
    case External(id) =>
      if id !in external.blocks {
        return Err(MissingExternalBlock(id));
      }
      var src := external.blocks[id];
      var d := with.getItf8(src);
      if d.Err? {
        return Err(d.error);
      }
      r := Ok(d.value.0);
      external.blocks := external.blocks[id := d.value.1];
    case Huffman(alphabet, bitLens) =>
      if |alphabet| == 1 {
        return Ok(alphabet[0]);
      }
      var d := with.huffman(alphabet, bitLens, core.bits);
      if d.Err? {
        return Err(d.error);
      }
      r := Ok(d.value.0);
      core.bits := d.value.1;
    case Beta(offset, len) =>
      if |core.bits| < len {
        return Err(Io(UnexpectedEof));
      }
      var i := BitsValue(core.bits[..len]) % 0x1_0000_0000;
      r := Ok(WrapI32(WrapI32(i) - offset));
      core.bits := core.bits[len..];
  }

  /** `decode_byte_array` on the readers themselves; `len` is the length of the buffer passed in. */
  method DecodeByteArray(with: Collaborators, e: Encoding, core: BitReader, external: ExternalDataReaders, len: Option<nat>)
    returns (r: Result<seq<Byte>, Error>)
    requires ByteArrayEncoding(e, len.Some?)
    modifies core, external
    ensures (r, StreamsOf(core, external)) == DecodeByteArraySpec(with, e, old(StreamsOf(core, external)), len)
    decreases e
  {
    match e
    case External(id) =>
      if id !in external.blocks {
        return Err(MissingExternalBlock(id));
      }
      var src := external.blocks[id];
      if |src| < len.value {
        return Err(Io(UnexpectedEof));
      }
      r := Ok(src[..len.value]);
      external.blocks := external.blocks[id := src[len.value..]];
    case ByteArrayLen(lenEncoding, valueEncoding) =>
      var n := DecodeItf8(with, lenEncoding, core, external);
      if n.Err? {
        return Err(n.error);
      }
      if n.value < 0 {
        return Err(Io(InvalidData));
      }
      r := DecodeByteArray(with, valueEncoding, core, external, Some(n.value));
    case ByteArrayStop(stopByte, id) =>
      if id !in external.blocks {
        return Err(MissingExternalBlock(id));
      }
      var src := external.blocks[id];
      var i := IndexOf(src, stopByte);
      if i.None? {
        return Err(Io(InvalidData));
      }
      r := Ok(src[..i.value]);
      external.blocks := external.blocks[id := src[i.value + 1..]];
  }

  /**
   * The record reader of a slice: the compression header and reference it reads with, the core
   * and external readers it owns and consumes, and the previous record's alignment start.
   */
  class Reader {
    const context: Context
    const core: BitReader
    const external: ExternalDataReaders
    var prevAlignmentStart: Option<Position>

    constructor New(header: CompressionHeader, coreBits: seq<bool>, blocks: map<I32, seq<Byte>>,
                    referenceSequenceId: ReferenceSequenceId, initialAlignmentStart: Option<Position>,
                    with: Collaborators)
      ensures context == Context(header, referenceSequenceId, with)
      ensures State() == Streams(coreBits, blocks) && fresh(core) && fresh(external)
      ensures prevAlignmentStart == initialAlignmentStart
    {
      context := Context(header, referenceSequenceId, with);
      core := new BitReader.New(coreBits);
      external := new ExternalDataReaders.New(blocks);
      prevAlignmentStart := initialAlignmentStart;
    }

    /** The bits and bytes not yet read. */
    function State(): Streams
      reads core, external
    {
      StreamsOf(core, external)
    }

    method ReadItf8(ds: DataSeries) returns (r: Result<I32, Error>)
      requires Supported(context.header) && DecoderOf(ds) == Itf8Decoder
      modifies core, external
      ensures (r, State()) == Itf8Spec(context, ds, old(State()))
    {
      if ds !in context.header.encodings {
        return Err(MissingDataSeriesEncoding(ds));
      }
      r := DecodeItf8(context.with, context.header.encodings[ds], core, external);
    }

    method ReadUsize(ds: DataSeries) returns (r: Result<nat, Error>)
      requires Supported(context.header) && DecoderOf(ds) == Itf8Decoder
      modifies core, external
      ensures (r, State()) == UsizeSpec(context, ds, old(State()))
    {
      var n := ReadItf8(ds);
      r := ToUsize(n);
    }

    method ReadByte(ds: DataSeries) returns (r: Result<Byte, Error>)
      requires Supported(context.header) && DecoderOf(ds) == ByteDecoder
      modifies core, external
      ensures (r, State()) == ByteSpec(context, ds, old(State()))
    {
      if ds !in context.header.encodings {
        return Err(MissingDataSeriesEncoding(ds));
      }
      r := DecodeByte(context.with, context.header.encodings[ds], core, external);
    }

    method ReadByteArray(ds: DataSeries) returns (r: Result<seq<Byte>, Error>)
      requires Supported(context.header) && DecoderOf(ds) == ByteArrayDecoder
      modifies core, external
      ensures (r, State()) == ByteArraySpec(context, ds, old(State()))
    {
      if ds !in context.header.encodings {
        return Err(MissingDataSeriesEncoding(ds));
      }
      r := DecodeByteArray(context.with, context.header.encodings[ds], core, external, None);
    }

    /** `read_base` and `read_quality_score`. */
    method ReadCheckedByte(ds: DataSeries) returns (r: Result<Byte, Error>)
      requires Supported(context.header) && (ds == BA || ds == QS)
      modifies core, external
      ensures (r, State()) == CheckedByteSpec(context, ds, old(State()))
    {
      var b := ReadByte(ds);
      if b.Err? {
        return Err(b.error);
      }
      if ValidByte(context.with, ds, b.value) {
        r := Ok(b.value);
      } else {
        r := Err(Io(InvalidData));
      }
    }

    /** `read_stretches_of_bases`, `read_stretches_of_quality_scores`, `read_insertion`, `read_soft_clip`. */
    method ReadCheckedBytes(ds: DataSeries) returns (r: Result<seq<Byte>, Error>)
      requires Supported(context.header) && (ds == BB || ds == QQ || ds == IN || ds == SC)
      modifies core, external
      ensures (r, State()) == CheckedBytesSpec(context, ds, old(State()))
    {
      var bytes := ReadByteArray(ds);
      if bytes.Err? {
        return Err(bytes.error);
      }
      if AllValid(context.with, ds, bytes.value) {
        r := Ok(bytes.value);
      } else {
        r := Err(Io(InvalidData));
      }
    }

    /** The loops that push `n` bases or quality scores. */
    method ReadMany(ds: DataSeries, n: nat) returns (r: Result<seq<Byte>, Error>)
      requires Supported(context.header) && (ds == BA || ds == QS)
      modifies core, external
      ensures (r, State()) == ManySpec(context, ds, n, old(State()))
    {
      var items: seq<Byte> := [];
      var i := 0;
      PrependEmpty(ManySpec(context, ds, n, State()));
      while i < n
        invariant i <= n
        invariant ManySpec(context, ds, n, old(State())) == Prepend(items, ManySpec(context, ds, n - i, State()))
      {
        var b := ReadCheckedByte(ds);
        if b.Err? {
          return Err(b.error);
        }
        PrependTwice(items, [b.value], ManySpec(context, ds, n - i - 1, State()));
        items := items + [b.value];
        i := i + 1;
      }
      assert items + [] == items;
      r := Ok(items);
    }

    method ReadReferenceId() returns (r: Result<Option<nat>, Error>)
      requires Supported(context.header)
      modifies core, external
      ensures (r, State()) == ReferenceIdSpec(context, old(State()))
    {
      var id: Result<I32, Error>;
      if context.referenceSequenceId.Many? {
        id := ReadItf8(RI);
        if id.Err? {
          return Err(id.error);
        }
      } else if context.referenceSequenceId.Single? {
        id := Ok(context.referenceSequenceId.id);
      } else {
        id := Ok(-1);
      }
      r := ToOptionalUsize(id);
    }

    method ReadAlignmentStart() returns (r: Result<Option<Position>, Error>)
      requires Supported(context.header)
      modifies core, external
      ensures (r, State()) == AlignmentStartSpec(context, prevAlignmentStart, old(State()))
    {
      var v := ReadItf8(AP);
      if v.Err? {
        return Err(v.error);
      }
      var start: int;
      if context.header.apDataSeriesDelta {
        var p := if prevAlignmentStart.Some? then prevAlignmentStart.value else 0;
        if p > I32_MAX {
          return Err(Io(InvalidData));
        }
        start := WrapI32(p + v.value);
      } else {
        start := v.value;
      }
      r := ToOptionalPosition(start);
    }

    method ReadPositionalData(record: Record) returns (r: Result<Record, Error>)
      requires Supported(context.header)
      modifies core, external
      ensures (r, State()) == PositionalDataSpec(context, prevAlignmentStart, record, old(State()))
    {
      var id := ReadReferenceId();
      if id.Err? {
        return Err(id.error);
      }
      var len := ReadUsize(RL);
      if len.Err? {
        return Err(len.error);
      }
      var start := ReadAlignmentStart();
      if start.Err? {
        return Err(start.error);
      }
      var group := ReadItf8(RG);
      var g := ToOptionalUsize(group);
      if g.Err? {
        return Err(g.error);
      }
      r := Ok(record.(referenceSequenceId := id.value, readLength := len.value,
                      alignmentStart := start.value, readGroup := g.value));
    }

    method ReadReadName() returns (r: Result<Option<seq<Byte>>, Error>)
      requires Supported(context.header)
      modifies core, external
      ensures (r, State()) == ReadNameSpec(context, old(State()))
    {
      var name := ReadByteArray(RN);
      if name.Err? {
        return Err(name.error);
      }
      if name.value == [0x2a] {
        r := Ok(None);
      } else if context.with.isReadName(name.value) {
        r := Ok(Some(name.value));
      } else {
        r := Err(Io(InvalidData));
      }
    }

    method ReadReadNames(record: Record) returns (r: Result<Record, Error>)
      requires Supported(context.header)
      modifies core, external
      ensures (r, State()) == ReadNamesSpec(context, record, old(State()))
    {
      if !context.header.readNamesIncluded {
        return Ok(record);
      }
      var name := ReadReadName();
      if name.Err? {
        return Err(name.error);
      }
      r := Ok(record.(readName := name.value));
    }

    method ReadNextMateBitFlags() returns (r: Result<bv8, Error>)
      requires Supported(context.header)
      modifies core, external
      ensures (r, State()) == NextMateBitFlagsSpec(context, old(State()))
    {
      var n := ReadItf8(MF);
      var flags := ToU8(n);
      r := if flags.Err? then Err(flags.error) else Ok(flags.value as bv8);
    }

    method ReadMateData(record: Record, bamFlags: bv16, flags: bv8) returns (r: Result<Record, Error>)
      requires Supported(context.header)
      modifies core, external
      ensures (r, State()) == MateDataSpec(context, record, bamFlags, flags, old(State()))
    {
      if HasCramFlag(flags, CramDetached) {
        var mateFlags := ReadNextMateBitFlags();
        if mateFlags.Err? {
          return Err(mateFlags.error);
        }
        var mateBits := mateFlags.value;
        var rec := record.(nextMateBitFlags := mateBits, bamBitFlags := MateBamFlags(bamFlags, mateBits));
        if !context.header.readNamesIncluded {
          var name := ReadReadName();
          if name.Err? {
            return Err(name.error);
          }
          rec := rec.(readName := name.value);
        }
        r := ReadMate(rec);
      } else if HasCramFlag(flags, CramHasMateDownstream) {
        var d := ReadUsize(NF);
        if d.Err? {
          return Err(d.error);
        }
        r := Ok(record.(distanceToNextFragment := Some(d.value)));
      } else {
        r := Ok(record);
      }
    }

    method ReadMate(record: Record) returns (r: Result<Record, Error>)
      requires Supported(context.header)
      modifies core, external
      ensures (r, State()) == MateSpec(context, record, old(State()))
    {
      var ns := ReadItf8(NS);
      var id := ToOptionalUsize(ns);
      if id.Err? {
        return Err(id.error);
      }
      var np := ReadUsize(NP);
      if np.Err? {
        return Err(np.error);
      }
      var ts := ReadItf8(TS);
      if ts.Err? {
        return Err(ts.error);
      }
      r := Ok(record.(nextFragmentReferenceSequenceId := id.value,
                      nextMateAlignmentStart := ToPosition(np.value), templateSize := ts.value));
    }

    method ReadTagData() returns (r: Result<seq<(TagIdsDictionary.Key, seq<Byte>)>, Error>)
      requires Supported(context.header)
      modifies core, external
      ensures (r, State()) == TagDataSpec(context, old(State()))
    {
      var line := ReadUsize(TL);
      if line.Err? {
        return Err(line.error);
      }
      if line.value >= |context.header.tagIdsDictionary| {
        return Err(Io(InvalidData));
      }
      var keys := context.header.tagIdsDictionary[line.value];
      var fields: seq<(TagIdsDictionary.Key, seq<Byte>)> := [];
      var i := 0;
      assert keys[0..] == keys;
      assert TagDataSpec(context, old(State())) == TagFieldsSpec(context, keys, State());
      PrependEmpty(TagFieldsSpec(context, keys, State()));
      while i < |keys|
        invariant i <= |keys|
        invariant TagDataSpec(context, old(State())) == Prepend(fields, TagFieldsSpec(context, keys[i..], State()))
      {
        var key := keys[i];
        assert keys[i..][1..] == keys[i + 1..];
        if key !in context.header.tagEncodings {
          return Err(MissingTagEncoding(key));
        }
        var data := DecodeByteArray(context.with, context.header.tagEncodings[key], core, external, None);
        if data.Err? {
          return Err(data.error);
        }
        PrependTwice(fields, [(key, data.value)], TagFieldsSpec(context, keys[i + 1..], State()));
        fields := fields + [(key, data.value)];
        i := i + 1;
      }
      assert fields + [] == fields;
      r := Ok(fields);
    }

    method ReadFeatureCode() returns (r: Result<Byte, Error>)
      requires Supported(context.header)
      modifies core, external
      ensures (r, State()) == FeatureCodeSpec(context, old(State()))
    {
      var code := ReadByte(FC);
      if code.Err? {
        return Err(code.error);
      }
      if IsFeatureCode(code.value) {
        r := Ok(code.value);
      } else {
        r := Err(Io(InvalidData));
      }
    }

    /** The arms of `read_feature` after the code and position. */
    method ReadFeatureBody(code: Byte, position: Position) returns (r: Result<Feature, Error>)
      requires Supported(context.header) && IsFeatureCode(code)
      modifies core, external
      ensures (r, State()) == FeatureBodySpec(context, code, position, old(State()))
    {
      if code == CodeReadBase {
        var base := ReadCheckedByte(BA);
        if base.Err? {
          return Err(base.error);
        }
        var score := ReadCheckedByte(QS);
        r := if score.Err? then Err(score.error) else Ok(ReadBase(position, base.value, score.value));
      } else if code == CodeSubstitution {
        var c := ReadByte(BS);
        r := if c.Err? then Err(c.error) else Ok(Substitution(position, c.value));
      } else if code == CodeInsertBase || code == CodeQualityScore {
        var b := ReadCheckedByte(FeatureSeries(code));
        if b.Err? {
          return Err(b.error);
        }
        r := Ok(if code == CodeInsertBase then InsertBase(position, b.value) else QualityScore(position, b.value));
      } else if IsBytesCode(code) {
        var bytes := ReadCheckedBytes(FeatureSeries(code));
        r := if bytes.Err? then Err(bytes.error) else Ok(BytesFeature(code, position, bytes.value));
      } else {
        var len := ReadUsize(FeatureSeries(code));
        r := if len.Err? then Err(len.error) else Ok(LengthFeature(code, position, len.value));
      }
    }

    method ReadFeature(prev: nat) returns (r: Result<Feature, Error>)
      requires Supported(context.header)
      modifies core, external
      ensures (r, State()) == FeatureSpec(context, prev, old(State()))
    {
      var code := ReadFeatureCode();
      if code.Err? {
        return Err(code.error);
      }
      var delta := ReadUsize(FP);
      if delta.Err? {
        return Err(delta.error);
      }
      if prev + delta.value == 0 {
        return Err(Io(InvalidData));
      }
      r := ReadFeatureBody(code.value, prev + delta.value);
    }

    method ReadMappingQuality() returns (r: Result<Option<Byte>, Error>)
      requires Supported(context.header)
      modifies core, external
      ensures (r, State()) == MappingQualitySpec(context, old(State()))
    {
      var n := ReadItf8(MQ);
      r := ToMappingQuality(n);
    }

    method ReadScores(record: Record, flags: bv8, readLength: nat) returns (r: Result<Record, Error>)
      requires Supported(context.header)
      modifies core, external
      ensures (r, State()) == ScoresSpec(context, record, flags, readLength, old(State()))
    {
      if !HasCramFlag(flags, CramScoresStoredAsArray) {
        return Ok(record);
      }
      var scores := ReadMany(QS, readLength);
      if scores.Err? {
        return Err(scores.error);
      }
      r := Ok(record.(qualityScores := record.qualityScores + scores.value));
    }

    method ReadMappedRead(record: Record, flags: bv8, readLength: nat) returns (r: Result<Record, Error>)
      requires Supported(context.header)
      modifies core, external
      ensures (r, State()) == MappedReadSpec(context, record, flags, readLength, old(State()))
    {
      var n := ReadUsize(FN);
      if n.Err? {
        return Err(n.error);
      }
      ghost var afterCount := State();
      var features: seq<Feature> := [];
      var prev: nat := 0;
      var i := 0;
      PrependEmpty(FeaturesSpec(context, n.value, 0, afterCount));
      while i < n.value
        invariant i <= n.value
        invariant FeaturesSpec(context, n.value, 0, afterCount) == Prepend(features, FeaturesSpec(context, n.value - i, prev, State()))
      {
        var f := ReadFeature(prev);
        if f.Err? {
          return Err(f.error);
        }
        PrependTwice(features, [f.value], FeaturesSpec(context, n.value - i - 1, f.value.position, State()));
        prev := f.value.position;
        features := features + [f.value];
        i := i + 1;
      }
      assert features + [] == features;
      var quality := ReadMappingQuality();
      if quality.Err? {
        return Err(quality.error);
      }
      r := ReadScores(record.(features := record.features + features, mappingQuality := quality.value), flags, readLength);
    }

    method ReadUnmappedRead(record: Record, flags: bv8, readLength: nat) returns (r: Result<Record, Error>)
      requires Supported(context.header)
      modifies core, external
      ensures (r, State()) == UnmappedReadSpec(context, record, flags, readLength, old(State()))
    {
      var bases := ReadMany(BA, readLength);
      if bases.Err? {
        return Err(bases.error);
      }
      r := ReadScores(record.(bases := record.bases + bases.value), flags, readLength);
    }

    method ReadBamBitFlags() returns (r: Result<bv16, Error>)
      requires Supported(context.header)
      modifies core, external
      ensures (r, State()) == BamBitFlagsSpec(context, old(State()))
    {
      var n := ReadItf8(BF);
      var flags := ToU16(n);
      r := if flags.Err? then Err(flags.error) else Ok(flags.value as bv16);
    }

    method ReadCramBitFlags() returns (r: Result<bv8, Error>)
      requires Supported(context.header)
      modifies core, external
      ensures (r, State()) == CramBitFlagsSpec(context, old(State()))
    {
      var n := ReadItf8(CF);
      var flags := ToU8(n);
      r := if flags.Err? then Err(flags.error) else Ok(flags.value as bv8);
    }

    /** Positional data, the name and mate data, into `record`. */
    method ReadFields(record: Record, bamFlags: bv16, flags: bv8) returns (r: Result<Record, Error>)
      requires Supported(context.header)
      modifies core, external
      ensures (r, State()) == FieldsSpec(context, prevAlignmentStart, record, bamFlags, flags, old(State()))
    {
      var rec := ReadPositionalData(record);
      if rec.Err? {
        return Err(rec.error);
      }
      rec := ReadReadNames(rec.value);
      if rec.Err? {
        return Err(rec.error);
      }
      r := ReadMateData(rec.value, bamFlags, flags);
    }

    /** The tags, then the read as unmapped or mapped. */
    method ReadTagsAndRead(record: Record, bamFlags: bv16, flags: bv8, readLength: nat) returns (r: Result<Record, Error>)
      requires Supported(context.header)
      modifies core, external
      ensures (r, State()) == TagsAndReadSpec(context, record, bamFlags, flags, readLength, old(State()))
    {
      var tags := ReadTagData();
      if tags.Err? {
        return Err(tags.error);
      }
      if HasBamFlag(bamFlags, BamUnmapped) {
        r := ReadUnmappedRead(record.(tags := tags.value), flags, readLength);
      } else {
        r := ReadMappedRead(record.(tags := tags.value), flags, readLength);
      }
    }

    /** `read_record`: one record, whose alignment start becomes the previous start for the next. */
    method ReadRecord() returns (r: Result<Record, Error>)
      requires Supported(context.header)
      modifies this, core, external
      ensures (r, State()) == RecordSpec(context, old(prevAlignmentStart), old(State()))
      ensures prevAlignmentStart == if r.Ok? then r.value.alignmentStart else old(prevAlignmentStart)
    {
      var bamFlags := ReadBamBitFlags();
      if bamFlags.Err? {
        return Err(bamFlags.error);
      }
      var flags := ReadCramBitFlags();
      if flags.Err? {
        return Err(flags.error);
      }
      var record := ReadFields(NewRecord(bamFlags.value, flags.value), bamFlags.value, flags.value);
      if record.Err? {
        return Err(record.error);
      }
      r := ReadTagsAndRead(record.value, bamFlags.value, flags.value, record.value.readLength);
      if r.Err? {
        return;
      }
      prevAlignmentStart := r.value.alignmentStart;
    }
  }

  /**
   * An encoding that names an external block the slice does not have fails with
   * MissingExternalBlock, which is InvalidData, and reads nothing.
   */
  lemma MissingExternalBlockIsInvalidData(with: Collaborators, id: I32, stopByte: Byte, s: Streams, n: nat)
    requires id !in s.external
    ensures DecodeByteSpec(with, External(id), s) == (Err(MissingExternalBlock(id)), s)
    ensures DecodeItf8Spec(with, External(id), s) == (Err(MissingExternalBlock(id)), s)
    ensures DecodeByteArraySpec(with, External(id), s, Some(n)) == (Err(MissingExternalBlock(id)), s)
    ensures DecodeByteArraySpec(with, ByteArrayStop(stopByte, id), s, None) == (Err(MissingExternalBlock(id)), s)
    ensures KindOf(MissingExternalBlock(id)) == InvalidData
  {
  }

  /**
   * `decode_byte` from an external block takes its first byte: a block that starts with `b` gives
   * `b` and keeps the rest, and an exhausted block is UnexpectedEof with nothing read.
   */
  lemma DecodeByteExternal(with: Collaborators, id: I32, s: Streams)
    requires id in s.external
    ensures var (r, s') := DecodeByteSpec(with, External(id), s);
      && (s.external[id] == [] <==> r == Err(Io(UnexpectedEof)))
      && (s.external[id] == [] ==> s' == s)
      && (r.Ok? ==> s.external[id] == [r.value] + s'.external[id] && s' == WithBlock(s, id, s'.external[id]))
  {
    var src := s.external[id];
    if src != [] {
      assert src == [src[0]] + src[1..];
    }
  }

  /** A one-symbol Huffman alphabet gives that symbol and reads no core bits. */
  lemma HuffmanSingleSymbol(with: Collaborators, symbol: I32, bitLens: seq<U32>, s: Streams)
    ensures DecodeItf8Spec(with, Huffman([symbol], bitLens), s) == (Ok(symbol), s)
    ensures DecodeByteSpec(with, Huffman([symbol], bitLens), s) == (Ok(AsU8(symbol)), s)
    ensures 0 <= symbol < 0x100 ==> AsU8(symbol) == symbol
  {
  }

  /**
   * Beta(offset, len) reads the next `len` core bits as a number and subtracts the offset, in
   * `i32`: a value written in `len` bits is read back less the offset, and the bits after it stay.
   */
  lemma BetaReadsValue(with: Collaborators, offset: I32, len: U32, v: U32, rest: seq<bool>, external: map<I32, seq<Byte>>)
    requires v < Pow2(len)
    ensures DecodeItf8Spec(with, Beta(offset, len), Streams(BitsOf(v, len) + rest, external))
      == (Ok(WrapI32(v - offset)), Streams(rest, external))
  {
    var core := BitsOf(v, len) + rest;
    assert core[..len] == BitsOf(v, len) && core[len..] == rest;
    BitsValueOf(v, len);
    assert BitsValue(core[..len]) % 0x1_0000_0000 == v;
    WrapI32Sub(v, offset);
  }

  /** With fewer than `len` core bits left, Beta is UnexpectedEof and reads nothing. */
  lemma BetaShort(with: Collaborators, offset: I32, len: U32, s: Streams)
    requires |s.core| < len
    ensures DecodeItf8Spec(with, Beta(offset, len), s) == (Err(Io(UnexpectedEof)), s)
  {
  }

  /**
   * ByteArrayLen with an External value encoding: once the length `n` is decoded, exactly `n`
   * bytes of the block are the value, and a block with fewer than `n` bytes is UnexpectedEof.
   */
  lemma ByteArrayLenExternal(with: Collaborators, lenEncoding: Encoding, id: I32, s: Streams, n: I32, s1: Streams)
    requires Itf8Encoding(lenEncoding)
    requires DecodeItf8Spec(with, lenEncoding, s) == (Ok(n), s1) && n >= 0 && id in s1.external
    ensures var (r, s') := DecodeByteArraySpec(with, ByteArrayLen(lenEncoding, External(id)), s, None);
      && (r.Ok? <==> n <= |s1.external[id]|)
      && (r.Ok? ==> id in s'.external && |r.value| == n && s1.external[id] == r.value + s'.external[id]
                    && s' == WithBlock(s1, id, s'.external[id]))
      && (r.Err? ==> r == Err(Io(UnexpectedEof)))
  {
    var src := s1.external[id];
    if n <= |src| {
      assert src == src[..n] + src[n..];
    }
  }

  /**
   * ByteArrayLen with a negative decoded length is InvalidData and reads nothing past the
   * length, whatever the value encoding.
   */
  lemma ByteArrayLenNegativeRejected(with: Collaborators, lenEncoding: Encoding, valueEncoding: Encoding, s: Streams, n: I32, s1: Streams)
    requires Itf8Encoding(lenEncoding) && ByteArrayEncoding(valueEncoding, true)
    requires DecodeItf8Spec(with, lenEncoding, s) == (Ok(n), s1) && n < 0
    ensures DecodeByteArraySpec(with, ByteArrayLen(lenEncoding, valueEncoding), s, None) == (Err(Io(InvalidData)), s1)
  {
  }

  /**
   * ByteArrayStop returns the bytes before the first stop byte and consumes the stop byte too:
   * a block of stop-free `data`, the stop byte and `rest` gives `data` and keeps `rest`.
   */
  lemma ByteArrayStopReadsData(with: Collaborators, stopByte: Byte, id: I32, s: Streams, data: seq<Byte>, rest: seq<Byte>)
    requires stopByte !in data
    requires id in s.external && s.external[id] == data + [stopByte] + rest
    ensures DecodeByteArraySpec(with, ByteArrayStop(stopByte, id), s, None) == (Ok(data), WithBlock(s, id, rest))
  {
    var src := s.external[id];
    assert src[|data|] == stopByte;
    assert forall j :: 0 <= j < |data| ==> src[j] == data[j] != stopByte;
    assert IndexOf(src, stopByte) == Some(|data|);
    assert src[..|data|] == data && src[|data| + 1..] == rest;
  }

  /** A block with no stop byte is InvalidData, with nothing read. */
  lemma ByteArrayStopMissing(with: Collaborators, stopByte: Byte, id: I32, s: Streams)
    requires id in s.external && stopByte !in s.external[id]
    ensures DecodeByteArraySpec(with, ByteArrayStop(stopByte, id), s, None) == (Err(Io(InvalidData)), s)
  {
  }

  /** The test at record.rs:1111-1132: External(1) over [0x0d] and Huffman([0x4e], [0]) each give a byte. */
  lemma DecodeByteExamples(with: Collaborators, core: seq<bool>, external: map<I32, seq<Byte>>)
    requires core == [true, false, false, false, false, false, false, false] && external == map[1 := [0x0d]]
    ensures DecodeByteSpec(with, External(1), Streams(core, external)).0 == Ok(0x0d)
    ensures DecodeByteSpec(with, Huffman([0x4e], [0]), Streams(core, external)).0 == Ok(0x4e)
  {
  }

  /** The test at record.rs:1134-1156, with `get_itf8` reading 13 from [0x0d]: External(1) and Huffman([0x4e], [0]). */
  lemma DecodeItf8Examples(with: Collaborators, core: seq<bool>, external: map<I32, seq<Byte>>)
    requires core == [true, false, false, false, false, false, false, false] && external == map[1 := [0x0d]]
    requires with.getItf8([0x0d]) == Ok((13, []))
    ensures DecodeItf8Spec(with, External(1), Streams(core, external)).0 == Ok(13)
    ensures DecodeItf8Spec(with, Huffman([0x4e], [0]), Streams(core, external)).0 == Ok(0x4e)
  {
  }

  /** The test at record.rs:1134-1156: Beta(1, 3) over 0b1000_0000 reads 4 in three bits and gives 3. */
  lemma DecodeItf8BetaExample(with: Collaborators, core: seq<bool>, external: map<I32, seq<Byte>>)
    requires core == [true, false, false, false, false, false, false, false]
    ensures DecodeItf8Spec(with, Beta(1, 3), Streams(core, external)) == (Ok(3), Streams(core[3..], external))
  {
    assert core == BitsOf(4, 3) + core[3..];
    BetaReadsValue(with, 1, 3, 4, core[3..], external);
  }

  /**
   * The test at record.rs:1175-1185, with `get_itf8` reading the length 4 from the first byte:
   * ByteArrayLen(External(1), External(1)) reads "ndls".
   */
  lemma ByteArrayLenExample(with: Collaborators, src: seq<Byte>, s: Streams)
    requires src == [0x04, 0x6e, 0x64, 0x6c, 0x73] && with.getItf8(src) == Ok((4, src[1..]))
    requires s == Streams([], map[1 := src])
    ensures DecodeByteArraySpec(with, ByteArrayLen(External(1), External(1)), s, None).0 == Ok(src[1..])
  {
    var s1 := WithBlock(s, 1, src[1..]);
    assert DecodeItf8Spec(with, External(1), s) == (Ok(4), s1);
    ByteArrayLenExternal(with, External(1), 1, s, 4, s1);
    var (r, s') := DecodeByteArraySpec(with, ByteArrayLen(External(1), External(1)), s, None);
    assert r.Ok? && |r.value| == 4;
    assert src[1..] == r.value + s'.external[1];
    assert r.value == src[1..];
  }

  /**
   * The tests at record.rs:1187-1196: ByteArrayStop(0x00, 1) reads "ndls" from "ndls\0", and
   * "ndls" alone is InvalidData.
   */
  lemma ByteArrayStopExamples(with: Collaborators, data: seq<Byte>)
    requires data == [0x6e, 0x64, 0x6c, 0x73]
    ensures DecodeByteArraySpec(with, ByteArrayStop(0x00, 1), Streams([], map[1 := data + [0x00]]), None).0 == Ok(data)
    ensures DecodeByteArraySpec(with, ByteArrayStop(0x00, 1), Streams([], map[1 := data]), None).0 == Err(Io(InvalidData))
  {
    ByteArrayStopReadsData(with, 0x00, 1, Streams([], map[1 := data + [0x00]]), data, []);
    ByteArrayStopMissing(with, 0x00, 1, Streams([], map[1 := data]));
  }

  /**
   * The code as written: `len as usize` of a negative decoded length sign-extends it, so
   * `vec![0; len as usize]` asks for this many bytes.
   */
  function ByteArrayLenRequest(n: I32): (size: nat)
    ensures n >= 0 ==> size == n
    ensures n < 0 ==> size > USIZE_MAX / 2
  {
    if n < 0 then n + USIZE_MAX + 1 else n
  }

  /**
   * A length of -1 asks for `usize::MAX` bytes, more than the `isize::MAX` a `Vec<u8>` may hold,
   * so the allocation panics where the corrected DecodeByteArraySpec gives InvalidData.
   */
  lemma ByteArrayLenNegativeAsWritten(with: Collaborators, lenEncoding: Encoding, valueEncoding: Encoding, s: Streams, s1: Streams)
    requires Itf8Encoding(lenEncoding) && ByteArrayEncoding(valueEncoding, true)
    requires DecodeItf8Spec(with, lenEncoding, s) == (Ok(-1), s1)
    ensures ByteArrayLenRequest(-1) == USIZE_MAX && ByteArrayLenRequest(-1) > USIZE_MAX / 2
    ensures DecodeByteArraySpec(with, ByteArrayLen(lenEncoding, valueEncoding), s, None) == (Err(Io(InvalidData)), s1)
  {
  }
}
