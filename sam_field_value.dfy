/** The value of an optional data field of a SAM record, read from its text. */
module SamFieldValue {
  import opened Wrappers
  import opened RustNum
  import Utf8

  /** The field types a SAM data field can declare. */
  datatype Type = Character | Int8 | UInt8 | Int16 | UInt16 | Int32 | UInt32 | Float | String | Hex | Array

  /**
   * A parsed value. Integer, float, hex and array values come from parsers that are not part of
   * this model; a float is kept as its IEEE-754 bits.
   */
  datatype Value =
    | CharacterValue(c: Byte)
    | IntegerValue(n: int)
    | FloatValue(bits: nat)
    | StringValue(s: string)
    | HexValue(h: seq<Byte>)
    | ArrayValue(subtype: Byte, elements: seq<int>)

  /** The errors of `Character::try_from`: a wrong input length, or a byte that is not a character. */
  datatype CharacterError = LengthMismatch(actual: nat) | InvalidByte(b: Byte)

  /** An error reported by one of the parsers outside this model. */
  datatype ForeignError = ForeignError(code: nat)

  datatype ParseError =
    | UnexpectedEof
    | InvalidType(actual: Type)
    | InvalidCharacter(ce: CharacterError)
    | InvalidInteger(ie: ForeignError)
    | InvalidFloat(fe: ForeignError)
    | InvalidString
    | InvalidHex(he: ForeignError)
    | InvalidArray(ae: ForeignError)

  /** The parsers this one delegates to: `Character::try_from`, lexical i32 and f32, `Hex`, `parse_array`. */
  datatype SubParsers = SubParsers(
    parseCharacter: Byte -> Result<Byte, CharacterError>,
    parseInt: seq<Byte> -> Result<int, ForeignError>,
    parseFloat: seq<Byte> -> Result<nat, ForeignError>,
    parseHex: seq<Byte> -> Result<seq<Byte>, ForeignError>,
    parseArray: seq<Byte> -> Result<(Byte, seq<int>), ForeignError>)

  /**
   * `parse_char`: exactly one byte, checked by `Character::try_from`; no byte is UnexpectedEof and
   * more than one is a length mismatch carrying the input length.
   */
  function ParseChar(src: seq<Byte>, p: SubParsers): (r: Result<Value, ParseError>)
    ensures src == [] ==> r == Err(UnexpectedEof)
    ensures |src| > 1 ==> r == Err(InvalidCharacter(LengthMismatch(|src|)))
    ensures r.Ok? ==> |src| == 1 && r.value.CharacterValue?
  {
    if src == [] then Err(UnexpectedEof)
    else if |src| == 1 then
      match p.parseCharacter(src[0])
      case Ok(c) => Ok(CharacterValue(c))
      case Err(e) => Err(InvalidCharacter(e))
    else Err(InvalidCharacter(LengthMismatch(|src|)))
  }

  predicate IsPrintable(b: Byte) { 0x20 <= b <= 0x7E }

  /**
   * `parse_string`: every byte must lie in ' '..='~'; the UTF-8 conversion that follows the
   * check is kept, though on such input it cannot fail (see ParseStringPrintable).
   */
  function ParseString(src: seq<Byte>): Result<Value, ParseError>
  {
    if forall i :: 0 <= i < |src| ==> IsPrintable(src[i]) then
      match Utf8.Decode(src)
      case Some(s) => Ok(StringValue(s))
      case None => Err(InvalidString)
    else Err(InvalidString)
  }

  /**
   * A string value is accepted exactly when all its bytes are printable ASCII (the empty one too),
   * and then it holds those bytes as characters.
   */
  lemma ParseStringPrintable(src: seq<Byte>)
    ensures ParseString(src).Ok? <==> forall i :: 0 <= i < |src| ==> IsPrintable(src[i])
    ensures ParseString(src).Ok? ==>
      ParseString(src).value.StringValue? && |ParseString(src).value.s| == |src| &&
      forall i :: 0 <= i < |src| ==> ParseString(src).value.s[i] as int == src[i]
    ensures ParseString(src).Err? ==> ParseString(src).error == InvalidString
  {
    if forall i :: 0 <= i < |src| ==> IsPrintable(src[i]) {
      Utf8.DecodeAscii(src);
    }
  }

  /** `parse_value`: six types have a parser; the other five are rejected with the type named. */
  function ParseValue(src: seq<Byte>, ty: Type, p: SubParsers): (r: Result<Value, ParseError>)
    ensures ty in {Int8, UInt8, Int16, UInt16, UInt32} <==> r == Err(InvalidType(ty))
    ensures ty == Character ==> r == ParseChar(src, p)
    ensures ty == String ==> r == ParseString(src)
  {
    match ty
    case Character => ParseChar(src, p)
    case Int32 =>
      (match p.parseInt(src)
       case Ok(n) => Ok(IntegerValue(n))
       case Err(e) => Err(InvalidInteger(e)))
    case Float =>
      (match p.parseFloat(src)
       case Ok(f) => Ok(FloatValue(f))
       case Err(e) => Err(InvalidFloat(e)))
    case String => ParseString(src)
    case Hex =>
      (match p.parseHex(src)
       case Ok(h) => Ok(HexValue(h))
       case Err(e) => Err(InvalidHex(e)))
    case Array =>
      (match p.parseArray(src)
       case Ok(a) => Ok(ArrayValue(a.0, a.1))
       case Err(e) => Err(InvalidArray(e)))
    case _ => Err(InvalidType(ty))
  }

  /** The string cases of the unit test at value.rs:166-172: the last input is a 4-byte emoji. */
  lemma ParseStringExamples()
    ensures ParseString([]) == Ok(StringValue(""))
    ensures ParseString([0x20]) == Ok(StringValue(" "))
    ensures ParseString([0xf0, 0x9f, 0x8d, 0x9c]) == Err(InvalidString)
  {
    assert !IsPrintable([0xf0, 0x9f, 0x8d, 0x9c][0]);
    Utf8.DecodeAscii([0x20]);
    assert Utf8.AsciiText([0x20]) == " ";
  }
}
