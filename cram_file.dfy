/**
 * The start of a CRAM file (section 6 of the CRAM format specification, version 3.0): the
 * 26-byte file definition (magic number "CRAM", major and minor version, 20-byte file ID), and the
 * SAM header text held in the first block of the header container.
 *
 * Reading and decompressing a container are not part of this model: a block carries the outcome
 * of its decompression, and the header is read from the container's list of blocks.
 */
module CramFile {
  import opened Wrappers
  import opened RustNum
  import Utf8

  /** The `io::ErrorKind`s these readers report. */
  datatype ErrorKind = UnexpectedEof | InvalidData | InvalidInput

  const MagicNumber: seq<Byte> := [0x43, 0x52, 0x41, 0x4d]

  datatype Version = Version(major: Byte, minor: Byte)

  datatype FileDefinition = FileDefinition(version: Version, fileId: seq<Byte>)

  /** `read_exact` of `n` bytes: the bytes and the rest, or UnexpectedEof with the input kept. */
  function ReadExact(input: seq<Byte>, n: nat): (Result<seq<Byte>, ErrorKind>, seq<Byte>)
  {
    if |input| < n then (Err(UnexpectedEof), input) else (Ok(input[..n]), input[n..])
  }

  /** `read_magic_number`: four bytes that must be "CRAM". */
  function MagicNumberSpec(input: seq<Byte>): (Result<(), ErrorKind>, seq<Byte>)
  {
    var (buf, rest) := ReadExact(input, 4);
    match buf
    case Err(e) => (Err(e), rest)
    case Ok(b) => (if b == MagicNumber then Ok(()) else Err(InvalidData), rest)
  }

  /** `read_format`: the major then the minor version byte. */
  function FormatSpec(input: seq<Byte>): (Result<Version, ErrorKind>, seq<Byte>)
  {
    var (buf, rest) := ReadExact(input, 2);
    match buf
    case Err(e) => (Err(e), rest)
    case Ok(b) => (Ok(Version(b[0], b[1])), rest)
  }

  /** `read_file_id`: 20 bytes taken as they are. */
  function FileIdSpec(input: seq<Byte>): (Result<seq<Byte>, ErrorKind>, seq<Byte>)
  {
    ReadExact(input, 20)
  }

  /** `read_file_definition`: magic number, format, file ID, stopping at the first error. */
  function FileDefinitionSpec(input: seq<Byte>): (Result<FileDefinition, ErrorKind>, seq<Byte>)
  {
    var (magic, afterMagic) := MagicNumberSpec(input);
    if magic.Err? then (Err(magic.error), afterMagic)
    else
      var (format, afterFormat) := FormatSpec(afterMagic);
      if format.Err? then (Err(format.error), afterFormat)
      else
        var (fileId, afterFileId) := FileIdSpec(afterFormat);
        if fileId.Err? then (Err(fileId.error), afterFileId)
        else (Ok(FileDefinition(format.value, fileId.value)), afterFileId)
  }

  /** The 26 bytes that make a file definition: what `read_file_definition` reads back. */
  function FileDefinitionBytes(fd: FileDefinition): seq<Byte>
  {
    MagicNumber + [fd.version.major, fd.version.minor] + fd.fileId
  }

  /** A CRAM reader over the bytes not yet read. */
  class Reader {
    var input: seq<Byte>

    constructor New(input: seq<Byte>)
      ensures this.input == input
    {
      this.input := input;
    }

    method ReadExactBytes(n: nat) returns (r: Result<seq<Byte>, ErrorKind>)
      modifies this
      ensures (r, input) == ReadExact(old(input), n)
    {
      if |input| < n {
        return Err(UnexpectedEof);
      }
      r := Ok(input[..n]);
      input := input[n..];
    }

    method ReadMagicNumber() returns (r: Result<(), ErrorKind>)
      modifies this
      ensures (r, input) == MagicNumberSpec(old(input))
    {
      var buf := ReadExactBytes(4);
      if buf.Err? {
        return Err(buf.error);
      }
      if buf.value == MagicNumber {
        r := Ok(());
      } else {
        r := Err(InvalidData);
      }
    }

    method ReadFormat() returns (r: Result<Version, ErrorKind>)
      modifies this
      ensures (r, input) == FormatSpec(old(input))
    {
      var buf := ReadExactBytes(2);
      if buf.Err? {
        return Err(buf.error);
      }
      r := Ok(Version(buf.value[0], buf.value[1]));
    }

    method ReadFileId() returns (r: Result<seq<Byte>, ErrorKind>)
      modifies this
      ensures (r, input) == FileIdSpec(old(input))
    {
      r := ReadExactBytes(20);
    }

    method ReadFileDefinition() returns (r: Result<FileDefinition, ErrorKind>)
      modifies this
      ensures (r, input) == FileDefinitionSpec(old(input))
    {
      var magic := ReadMagicNumber();
      if magic.Err? {
        return Err(magic.error);
      }
      var format := ReadFormat();
      if format.Err? {
        return Err(format.error);
      }
      var fileId := ReadFileId();
      if fileId.Err? {
        return Err(fileId.error);
      }
      r := Ok(FileDefinition(format.value, fileId.value));
    }
  }

  /**
   * The file definition is read exactly when the input starts with "CRAM" and holds 26 bytes; it
   * then takes bytes 4 and 5 as the version and bytes 6 to 25 as the file ID, and consumes 26 bytes.
   * Fewer than four bytes are UnexpectedEof, another magic number is InvalidData, and a short
   * version or file ID is UnexpectedEof.
   */
  lemma FileDefinitionSpecCases(input: seq<Byte>)
    ensures var (r, rest) := FileDefinitionSpec(input);
      && (r.Ok? <==> |input| >= 26 && input[..4] == MagicNumber)
      && (r.Ok? ==> r.value == FileDefinition(Version(input[4], input[5]), input[6..26]) && rest == input[26..])
      && (|input| < 4 ==> r == Err(UnexpectedEof))
      && (|input| >= 4 && input[..4] != MagicNumber ==> r == Err(InvalidData))
      && (4 <= |input| < 26 && input[..4] == MagicNumber ==> r == Err(UnexpectedEof))
  {
    if |input| >= 26 {
      assert input[4..][..2] == [input[4], input[5]];
      assert input[4..][2..] == input[6..];
      assert input[6..][..20] == input[6..26];
      assert input[6..][20..] == input[26..];
    }
  }

  /** Reading back the bytes of a file definition with a 20-byte ID gives it and leaves what follows. */
  lemma FileDefinitionRoundTrip(fd: FileDefinition, rest: seq<Byte>)
    requires |fd.fileId| == 20
    ensures FileDefinitionSpec(FileDefinitionBytes(fd) + rest) == (Ok(fd), rest)
  {
    var input := FileDefinitionBytes(fd) + rest;
    FileDefinitionSpecCases(input);
    assert input[..4] == MagicNumber;
    assert input[6..26] == fd.fileId;
    assert input[26..] == rest;
  }

  /** The tests at reader.rs:426-448: "CRAM" is accepted, no bytes are UnexpectedEof, "BAM\x01" is InvalidData. */
  lemma MagicNumberExamples()
    ensures MagicNumberSpec([0x43, 0x52, 0x41, 0x4d]).0 == Ok(())
    ensures MagicNumberSpec([]).0 == Err(UnexpectedEof)
    ensures MagicNumberSpec([0x42, 0x41, 0x4d, 0x01]).0 == Err(InvalidData)
  {
    var bam: seq<Byte> := [0x42, 0x41, 0x4d, 0x01];
    assert bam[..4][0] != MagicNumber[0];
  }

  /** The test at reader.rs:372-389: version 3.0 and the 20 bytes after it as the file ID. */
  lemma FileDefinitionExample()
    ensures var fileId: seq<Byte> := [0x00, 0x68, 0xac, 0xf3, 0x06, 0x4d, 0xaa, 0x1e, 0x29, 0xa4,
                                      0xa0, 0x8c, 0x56, 0xee, 0x91, 0x9b, 0x91, 0x04, 0x21, 0x1f];
      FileDefinitionSpec([0x43, 0x52, 0x41, 0x4d, 0x03, 0x00] + fileId)
        == (Ok(FileDefinition(Version(3, 0), fileId)), [])
  {
    var fileId: seq<Byte> := [0x00, 0x68, 0xac, 0xf3, 0x06, 0x4d, 0xaa, 0x1e, 0x29, 0xa4,
                              0xa0, 0x8c, 0x56, 0xee, 0x91, 0x9b, 0x91, 0x04, 0x21, 0x1f];
    FileDefinitionRoundTrip(FileDefinition(Version(3, 0), fileId), []);
    assert FileDefinitionBytes(FileDefinition(Version(3, 0), fileId)) + []
      == [0x43, 0x52, 0x41, 0x4d, 0x03, 0x00] + fileId;
  }

  /** `ContentType` of a block. */
  datatype ContentType = FileHeader | CompressionHeader | SliceHeader | Reserved | ExternalData | CoreData

  /** A block: its content type and the outcome of decompressing its data. */
  datatype Block = Block(contentType: ContentType, decompressedData: Result<seq<Byte>, ErrorKind>)

  /**
   * `read_file_header_block`: the block must be a file header block; its data is a 4-byte length,
   * which is not checked, then the header text in UTF-8.
   */
  function ReadFileHeaderBlock(block: Block): Result<string, ErrorKind>
  {
    if block.contentType != FileHeader then Err(InvalidData)
    else
      match block.decompressedData
      case Err(e) => Err(e)
      case Ok(data) =>
        if |data| < 4 then Err(UnexpectedEof)
        else
          match Utf8.Decode(data[4..])
          case None => Err(InvalidData)
          case Some(text) => Ok(text)
  }

  /** `read_file_header`, given the blocks of the header container: the first block holds the header. */
  function ReadFileHeader(blocks: seq<Block>): (r: Result<string, ErrorKind>)
    ensures blocks == [] ==> r == Err(InvalidData)
    ensures blocks != [] ==> r == ReadFileHeaderBlock(blocks[0])
  {
    if blocks == [] then Err(InvalidData) else ReadFileHeaderBlock(blocks[0])
  }

  /**
   * A header block is read exactly when it is a file header block whose data decompresses to at
   * least four bytes followed by well-formed UTF-8, and the text is what those bytes encode; any
   * other content type is InvalidData.
   */
  lemma ReadFileHeaderBlockCases(block: Block)
    ensures var r := ReadFileHeaderBlock(block);
      && (r.Ok? <==>
            && block.contentType == FileHeader
            && block.decompressedData.Ok?
            && |block.decompressedData.value| >= 4
            && Utf8.Decode(block.decompressedData.value[4..]).Some?)
      && (r.Ok? ==> Some(r.value) == Utf8.Decode(block.decompressedData.value[4..]))
      && (block.contentType != FileHeader ==> r == Err(InvalidData))
  {
  }

  /** A file header block of any 4-byte length field and an encoded text reads back that text. */
  lemma ReadFileHeaderBlockText(lengthBytes: seq<Byte>, text: string)
    requires |lengthBytes| == 4
    ensures ReadFileHeaderBlock(Block(FileHeader, Ok(lengthBytes + Utf8.Encode(text)))) == Ok(text)
  {
    Utf8.DecodeEncode(text);
    assert (lengthBytes + Utf8.Encode(text))[4..] == Utf8.Encode(text);
  }

  /** The tests at reader.rs:391-424: "noodles" after its length reads back; an external data block is InvalidData. */
  lemma ReadFileHeaderBlockExamples()
    ensures ReadFileHeaderBlock(Block(FileHeader, Ok([7, 0, 0, 0] + Utf8.Encode("noodles")))) == Ok("noodles")
    ensures ReadFileHeaderBlock(Block(ExternalData, Ok([]))) == Err(InvalidData)
  {
    ReadFileHeaderBlockText([7, 0, 0, 0], "noodles");
  }
}
