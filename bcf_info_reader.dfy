/**
 * Reading the INFO fields of a BCF record: each field is a string-map index naming an INFO key
 * of the header, followed by a typed value that is converted to a VCF INFO value according to
 * the type the header declares for that key. The typed-value decoder and the string-map index
 * decoder are not part of this model; they are passed in as `Decoders`.
 */
module BcfInfoReader {
  import opened Wrappers
  import opened RustNum
  import Utf8
  import VcfGenotypesWriter

  /** A decoded integer: a value, or one of the sentinels of the BCF integer types. */
  datatype IntCell = IntValue(n: int) | IntMissing | IntEndOfVector | IntReserved(code: int)

  /** A decoded float, kept as its f32 bits, or one of the BCF float sentinels. */
  datatype FloatCell = FloatValue(bits: nat) | FloatMissing | FloatEndOfVector | FloatReserved(rbits: nat)

  /** A typed BCF value as the value decoder yields it; arrays hold their classified cells. */
  datatype TypedValue =
    | Int8(i8: Option<IntCell>)
    | Int16(i16: Option<IntCell>)
    | Int32(i32: Option<IntCell>)
    | Float(f: Option<FloatCell>)
    | String(s: Option<string>)
    | Int8Array(a8: seq<IntCell>)
    | Int16Array(a16: seq<IntCell>)
    | Int32Array(a32: seq<IntCell>)
    | FloatArray(af: seq<FloatCell>)

  /** The type an INFO header record declares. */
  datatype InfoType = IntegerType | FlagType | FloatType | CharacterType | StringType

  /** A VCF INFO field value. */
  datatype InfoValue =
    | Integer(n: int)
    | FloatNumber(bits: nat)
    | Flag
    | Character(c: char)
    | Text(s: string)
    | IntegerArray(ns: seq<Option<int>>)
    | FloatNumberArray(fs: seq<Option<nat>>)
    | CharacterArray(cs: seq<Option<char>>)

  datatype InfoError =
    | TypeMismatch(actual: Option<TypedValue>, expected: InfoType)
    | MissingCharacter
    | InvalidStringMapIndex(index: nat)
    | MissingInfoRecord(key: string)
    | DuplicateKey(duplicate: string)
    /** An error of a decoder that is not part of this model. */
    | DecodeError(code: nat)

  /** The decoders of the underlying stream: each yields its result and the rest of the input. */
  datatype Decoders = Decoders(
    readStringMapIndex: seq<Byte> -> Result<(nat, seq<Byte>), InfoError>,
    readValue: seq<Byte> -> Result<(Option<TypedValue>, seq<Byte>), InfoError>)

  predicate IntArrayCells(a: seq<IntCell>)
  {
    forall i :: 0 <= i < |a| ==> a[i].IntValue? || a[i].IntMissing?
  }

  predicate FloatArrayCells(a: seq<FloatCell>)
  {
    forall i :: 0 <= i < |a| ==> a[i].FloatValue? || a[i].FloatMissing?
  }

  /** Arrays hold only values and missing cells; end-of-vector or reserved cells are a panic. */
  predicate Unpadded(v: Option<TypedValue>)
  {
    match v
    case Some(Int8Array(a)) => IntArrayCells(a)
    case Some(Int16Array(a)) => IntArrayCells(a)
    case Some(Int32Array(a)) => IntArrayCells(a)
    case Some(FloatArray(a)) => FloatArrayCells(a)
    case _ => true
  }

  ghost predicate ValidDecoders(d: Decoders)
  {
    forall s :: d.readValue(s).Ok? ==> Unpadded(d.readValue(s).value.0)
  }

  /** An integer cell with no value: an absent value or the missing sentinel. */
  predicate IsMissingInteger(v: Option<TypedValue>)
  {
    v.None?
    || (v.value.Int8? && (v.value.i8.None? || v.value.i8.value.IntMissing?))
    || (v.value.Int16? && (v.value.i16.None? || v.value.i16.value.IntMissing?))
    || (v.value.Int32? && (v.value.i32.None? || v.value.i32.value.IntMissing?))
  }

  /** The integer a scalar holds, when it holds one. */
  function ScalarInteger(v: Option<TypedValue>): Option<int>
  {
    match v
    case Some(Int8(Some(IntValue(n)))) => Some(n)
    case Some(Int16(Some(IntValue(n)))) => Some(n)
    case Some(Int32(Some(IntValue(n)))) => Some(n)
    case _ => None
  }

  function IntegerArrayCells(v: Option<TypedValue>): Option<seq<IntCell>>
  {
    match v
    case Some(Int8Array(a)) => Some(a)
    case Some(Int16Array(a)) => Some(a)
    case Some(Int32Array(a)) => Some(a)
    case _ => None
  }

  function Widen(a: seq<IntCell>): seq<Option<int>>
  {
    seq(|a|, i requires 0 <= i < |a| => if a[i].IntValue? then Some(a[i].n) else None)
  }

  /**
   * `read_info_field_integer_value`: no value for an absent or missing integer, the integer of
   * an 8-, 16- or 32-bit value, the cells of an integer array with missing cells as None, and a
   * type mismatch for anything else.
   */
  function IntegerValue(v: Option<TypedValue>): (r: Result<Option<InfoValue>, InfoError>)
    requires Unpadded(v)
    ensures r == Ok(None) <==> IsMissingInteger(v)
    ensures ScalarInteger(v).Some? <==> (r.Ok? && r.value.Some? && r.value.value.Integer?)
    ensures ScalarInteger(v).Some? ==> r == Ok(Some(Integer(ScalarInteger(v).value)))
    ensures IntegerArrayCells(v).Some? <==> (r.Ok? && r.value.Some? && r.value.value.IntegerArray?)
    ensures IntegerArrayCells(v).Some? ==>
      var a := IntegerArrayCells(v).value;
      var ns := r.value.value.ns;
      && |ns| == |a|
      && (forall i :: 0 <= i < |a| ==> (ns[i].None? <==> a[i].IntMissing?))
      && (forall i :: 0 <= i < |a| ==> (ns[i].Some? ==> a[i] == IntValue(ns[i].value)))
    ensures r.Ok? <==> IsMissingInteger(v) || ScalarInteger(v).Some? || IntegerArrayCells(v).Some?
    ensures r.Err? ==> r == Err(TypeMismatch(v, IntegerType))
  {
    match v
    case None => Ok(None)
    case Some(Int8(None)) => Ok(None)
    case Some(Int8(Some(IntMissing))) => Ok(None)
    case Some(Int16(None)) => Ok(None)
    case Some(Int16(Some(IntMissing))) => Ok(None)
    case Some(Int32(None)) => Ok(None)
    case Some(Int32(Some(IntMissing))) => Ok(None)
    case Some(Int8(Some(IntValue(n)))) => Ok(Some(Integer(n)))
    case Some(Int8Array(a)) => Ok(Some(IntegerArray(Widen(a))))
    case Some(Int16(Some(IntValue(n)))) => Ok(Some(Integer(n)))
    case Some(Int16Array(a)) => Ok(Some(IntegerArray(Widen(a))))
    case Some(Int32(Some(IntValue(n)))) => Ok(Some(Integer(n)))
    case Some(Int32Array(a)) => Ok(Some(IntegerArray(Widen(a))))
    case _ => Err(TypeMismatch(v, IntegerType))
  }

  /** `read_info_field_flag_value`: a flag is an absent value or the 8-bit integer 1. */
  function FlagValue(v: Option<TypedValue>): (r: Result<Option<InfoValue>, InfoError>)
    ensures r.Ok? <==> v.None? || v == Some(Int8(Some(IntValue(1))))
    ensures r.Ok? ==> r.value == Some(Flag)
    ensures r.Err? ==> r.error == TypeMismatch(v, FlagType)
  {
    match v
    case None => Ok(Some(Flag))
    case Some(Int8(Some(IntValue(1)))) => Ok(Some(Flag))
    case _ => Err(TypeMismatch(v, FlagType))
  }

  /** `read_info_field_float_value`: floats pass through as bits, missing cells become None. */
  function FloatInfoValue(v: Option<TypedValue>): (r: Result<Option<InfoValue>, InfoError>)
    requires Unpadded(v)
    ensures r == Ok(None) <==> v.None? || (v.value.Float? && (v.value.f.None? || v.value.f.value.FloatMissing?))
    ensures r.Ok? <==> (v.None? || v.value.FloatArray?
      || (v.value.Float? && (v.value.f.None? || v.value.f.value.FloatValue? || v.value.f.value.FloatMissing?)))
    ensures v.Some? && v.value.Float? && v.value.f.Some? && v.value.f.value.FloatValue? ==>
      r == Ok(Some(FloatNumber(v.value.f.value.bits)))
    ensures r.Err? ==> r.error == TypeMismatch(v, FloatType)
    ensures v.Some? && v.value.FloatArray? ==>
      var a := v.value.af;
      r.Ok? && r.value.Some? && r.value.value.FloatNumberArray? && |r.value.value.fs| == |a|
      && (forall i :: 0 <= i < |a| ==> (r.value.value.fs[i].None? <==> a[i].FloatMissing?))
      && (forall i :: 0 <= i < |a| && r.value.value.fs[i].Some? ==> a[i] == FloatValue(r.value.value.fs[i].value))
  {
    match v
    case None => Ok(None)
    case Some(Float(None)) => Ok(None)
    case Some(Float(Some(FloatMissing))) => Ok(None)
    case Some(Float(Some(FloatValue(n)))) => Ok(Some(FloatNumber(n)))
    case Some(Float(Some(_))) => Err(TypeMismatch(v, FloatType))
    case Some(FloatArray(a)) =>
      Ok(Some(FloatNumberArray(seq(|a|, i requires 0 <= i < |a| => if a[i].FloatValue? then Some(a[i].bits) else None))))
    case _ => Err(TypeMismatch(v, FloatType))
  }

  /**
   * The characters of a character list: every character except the ',' delimiters, with "."
   * as a missing character.
   */
  function CharCells(s: string): seq<Option<char>>
  {
    if s == [] then []
    else if s[0] == ',' then CharCells(s[1..])
    else [if s[0] == '.' then None else Some(s[0])] + CharCells(s[1..])
  }

  /** The byte length of a string, as Rust's `str::len` counts it. */
  function ByteLength(s: string): nat
  {
    |Utf8.Encode(s)|
  }

  /**
   * `read_info_field_character_value`: a string of at most one byte is a single character
   * (the empty string is an error); a longer one is a character list.
   */
  function CharacterValue(v: Option<TypedValue>): (r: Result<Option<InfoValue>, InfoError>)
    ensures r == Ok(None) <==> v == None || v == Some(String(None))
    ensures r == Err(MissingCharacter) <==> v == Some(String(Some("")))
    ensures r.Err? && r.error != MissingCharacter <==> v.Some? && !v.value.String?
    ensures r.Err? && r.error != MissingCharacter ==> r.error == TypeMismatch(v, CharacterType)
    ensures v.Some? && v.value.String? && v.value.s.Some? && ByteLength(v.value.s.value) > 1 ==>
      r == Ok(Some(CharacterArray(CharCells(v.value.s.value))))
  {
    match v
    case None => Ok(None)
    case Some(String(None)) => Ok(None)
    case Some(String(Some(s))) =>
      if ByteLength(s) <= 1 then
        if s == [] then Err(MissingCharacter) else Ok(Some(Character(s[0])))
      else Ok(Some(CharacterArray(CharCells(s))))
    case _ => Err(TypeMismatch(v, CharacterType))
  }

  /** `read_info_field_string_value`. */
  function StringValue(v: Option<TypedValue>): (r: Result<Option<InfoValue>, InfoError>)
    ensures r == Ok(None) <==> v == None || v == Some(String(None))
    ensures r.Ok? <==> v.None? || v.value.String?
    ensures v.Some? && v.value.String? && v.value.s.Some? ==> r == Ok(Some(Text(v.value.s.value)))
    ensures r.Err? ==> r.error == TypeMismatch(v, StringType)
  {
    match v
    case None => Ok(None)
    case Some(String(None)) => Ok(None)
    case Some(String(Some(s))) => Ok(Some(Text(s)))
    case _ => Err(TypeMismatch(v, StringType))
  }

  /** `read_info_field_value`: the conversion the header's declared type selects. */
  function ConvertValue(v: Option<TypedValue>, ty: InfoType): Result<Option<InfoValue>, InfoError>
    requires Unpadded(v)
  {
    match ty
    case IntegerType => IntegerValue(v)
    case FlagType => FlagValue(v)
    case FloatType => FloatInfoValue(v)
    case CharacterType => CharacterValue(v)
    case StringType => StringValue(v)
  }

  /**
   * `read_info_field_key`: the string-map entry the decoded index names, which must be the key
   * of an INFO header record. An index past the end of the string map and an entry with no INFO
   * header record are InvalidData; an error of the index decoder is passed on.
   */
  function ReadInfoFieldKey(src: seq<Byte>, infos: map<string, InfoType>, stringMap: seq<string>, d: Decoders)
    : (r: Result<(string, seq<Byte>), InfoError>)
    ensures r.Ok? ==> r.value.0 in infos && r.value.0 in stringMap
    ensures d.readStringMapIndex(src).Err? ==> r == Err(d.readStringMapIndex(src).error)
    ensures d.readStringMapIndex(src).Ok? ==>
      var (j, rest) := d.readStringMapIndex(src).value;
      && (j >= |stringMap| ==> r == Err(InvalidStringMapIndex(j)))
      && (j < |stringMap| && stringMap[j] !in infos ==> r == Err(MissingInfoRecord(stringMap[j])))
      && (r.Ok? <==> j < |stringMap| && stringMap[j] in infos)
      && (r.Ok? ==> r.value == (stringMap[j], rest))
  {
    match d.readStringMapIndex(src)
    case Err(e) => Err(e)
    case Ok((j, rest)) =>
      if j >= |stringMap| then Err(InvalidStringMapIndex(j))
      else if stringMap[j] !in infos then Err(MissingInfoRecord(stringMap[j]))
      else Ok((stringMap[j], rest))
  }

  /**
   * `read_info_field`: a key, then a value converted by the key's declared type. The first
   * error, of the key, of the value decoder or of the conversion, is the result.
   */
  function ReadInfoField(src: seq<Byte>, infos: map<string, InfoType>, stringMap: seq<string>, d: Decoders)
    : (r: Result<((string, Option<InfoValue>), seq<Byte>), InfoError>)
    requires ValidDecoders(d)
    ensures r.Ok? ==> r.value.0.0 in infos && r.value.0.0 in stringMap
    ensures ReadInfoFieldKey(src, infos, stringMap, d).Err? ==> r == Err(ReadInfoFieldKey(src, infos, stringMap, d).error)
    ensures ReadInfoFieldKey(src, infos, stringMap, d).Ok? ==>
      var (key, rest) := ReadInfoFieldKey(src, infos, stringMap, d).value;
      && (d.readValue(rest).Err? ==> r == Err(d.readValue(rest).error))
      && (d.readValue(rest).Ok? ==>
            var (v, rest2) := d.readValue(rest).value;
            && (ConvertValue(v, infos[key]).Err? ==> r == Err(ConvertValue(v, infos[key]).error))
            && (ConvertValue(v, infos[key]).Ok? ==> r == Ok(((key, ConvertValue(v, infos[key]).value), rest2))))
  {
    match ReadInfoFieldKey(src, infos, stringMap, d)
    case Err(e) => Err(e)
    case Ok((key, rest)) =>
      match d.readValue(rest)
      case Err(e) => Err(e)
      case Ok((v, rest2)) =>
        match ConvertValue(v, infos[key])
        case Err(e) => Err(e)
        case Ok(value) => Ok(((key, value), rest2))
  }

  function Keys(entries: seq<(string, Option<InfoValue>)>): seq<string>
  {
    seq(|entries|, i requires 0 <= i < |entries| => entries[i].0)
  }

  /** The outcome of reading `n` fields: the entries in order and the rest of the input. */
  function ReadFields(src: seq<Byte>, infos: map<string, InfoType>, stringMap: seq<string>, n: nat, d: Decoders)
    : Result<(seq<(string, Option<InfoValue>)>, seq<Byte>), InfoError>
    requires ValidDecoders(d)
  {
    if n == 0 then Ok(([], src))
    else
      match ReadFields(src, infos, stringMap, n - 1, d)
      case Err(e) => Err(e)
      case Ok((entries, rest)) =>
        match ReadInfoField(rest, infos, stringMap, d)
        case Err(e) => Err(e)
        case Ok((field, rest2)) =>
          if field.0 in Keys(entries) then Err(DuplicateKey(field.0))
          else Ok((entries + [field], rest2))
  }

  /** Once a read fails, reading more fields fails with the same error. */
  lemma {:induction false} ReadFieldsErrSticky(src: seq<Byte>, infos: map<string, InfoType>, stringMap: seq<string>, n: nat, m: nat, d: Decoders)
    requires ValidDecoders(d)
    requires n <= m && ReadFields(src, infos, stringMap, n, d).Err?
    ensures ReadFields(src, infos, stringMap, m, d) == ReadFields(src, infos, stringMap, n, d)
    decreases m - n
  {
    if n < m {
      ReadFieldsErrSticky(src, infos, stringMap, n + 1, m, d);
    }
  }

  /** `read_info`: reads `len` fields, rejecting a key read twice. */
  method ReadInfo(src: seq<Byte>, infos: map<string, InfoType>, stringMap: seq<string>, len: nat, d: Decoders)
    returns (r: Result<(seq<(string, Option<InfoValue>)>, seq<Byte>), InfoError>)
    requires ValidDecoders(d)
    ensures r == ReadFields(src, infos, stringMap, len, d)
  {
    var entries: seq<(string, Option<InfoValue>)> := [];
    var rest := src;
    for i := 0 to len
      invariant ReadFields(src, infos, stringMap, i, d) == Ok((entries, rest))
    {
      var field := ReadInfoField(rest, infos, stringMap, d);
      if field.Err? {
        ReadFieldsErrSticky(src, infos, stringMap, i + 1, len, d);
        return Err(field.error);
      }
      var (kv, rest2) := field.value;
      if kv.0 in Keys(entries) {
        ReadFieldsErrSticky(src, infos, stringMap, i + 1, len, d);
        return Err(DuplicateKey(kv.0));
      }
      entries, rest := entries + [kv], rest2;
    }
    return Ok((entries, rest));
  }

  /**
   * A successful read holds exactly `len` fields with pairwise distinct keys, each the key of
   * an INFO header record named in the string map.
   */
  lemma {:induction false} ReadFieldsOk(src: seq<Byte>, infos: map<string, InfoType>, stringMap: seq<string>, n: nat, d: Decoders)
    requires ValidDecoders(d)
    requires ReadFields(src, infos, stringMap, n, d).Ok?
    ensures var entries := ReadFields(src, infos, stringMap, n, d).value.0;
      && |entries| == n
      && (forall i, j :: 0 <= i < j < |entries| ==> entries[i].0 != entries[j].0)
      && (forall i :: 0 <= i < |entries| ==> entries[i].0 in infos && entries[i].0 in stringMap)
  {
    if n > 0 {
      ReadFieldsOk(src, infos, stringMap, n - 1, d);
      var (entries, rest) := ReadFields(src, infos, stringMap, n - 1, d).value;
      var (field, _) := ReadInfoField(rest, infos, stringMap, d).value;
      assert field.0 !in Keys(entries);
      var all := entries + [field];
      forall i, j | 0 <= i < j < |all|
        ensures all[i].0 != all[j].0
      {
        if j == |entries| {
          assert Keys(entries)[i] == all[i].0;
        }
      }
    }
  }

  /** A key read a second time ends the read with `DuplicateKey` naming it. */
  lemma DuplicateKeyRejected(src: seq<Byte>, infos: map<string, InfoType>, stringMap: seq<string>, n: nat, d: Decoders)
    requires ValidDecoders(d)
    requires ReadFields(src, infos, stringMap, n, d).Ok?
    requires var (entries, rest) := ReadFields(src, infos, stringMap, n, d).value;
      && ReadInfoField(rest, infos, stringMap, d).Ok?
      && exists i :: 0 <= i < |entries| && entries[i].0 == ReadInfoField(rest, infos, stringMap, d).value.0.0
    ensures var rest := ReadFields(src, infos, stringMap, n, d).value.1;
      ReadFields(src, infos, stringMap, n + 1, d) == Err(DuplicateKey(ReadInfoField(rest, infos, stringMap, d).value.0.0))
  {
    var (entries, rest) := ReadFields(src, infos, stringMap, n, d).value;
    var k := ReadInfoField(rest, infos, stringMap, d).value.0.0;
    var i :| 0 <= i < |entries| && entries[i].0 == k;
    assert Keys(entries)[i] == k;
  }

  lemma {:induction false} EncodeLength(s: string)
    ensures |Utf8.Encode(s)| >= |s|
  {
    if s != [] {
      EncodeLength(s[1..]);
    }
  }

  /**
   * A one-character string of one byte is that character; a character of two or more bytes,
   * though alone, is read as a one-element character list.
   */
  lemma SingleCharacters(c: char)
    ensures (c as int) < 0x80 ==> CharacterValue(Some(String(Some([c])))) == Ok(Some(Character(c)))
    ensures (c as int) >= 0x80 && c != ',' && c != '.' ==>
      CharacterValue(Some(String(Some([c])))) == Ok(Some(CharacterArray([Some(c)])))
  {
    assert [c][1..] == [];
    assert Utf8.Encode([c]) == Utf8.EncodeChar(c) + Utf8.Encode([]);
    if (c as int) >= 0x80 {
      assert ByteLength([c]) > 1;
      assert CharCells([c]) == [Some(c)] + CharCells([]);
      assert CharCells([]) == [];
      assert CharCells([c]) == [Some(c)];
    }
  }

  /** Any string of two or more characters is read as a character list. */
  lemma LongStringIsList(s: string)
    requires |s| >= 2
    ensures CharacterValue(Some(String(Some(s)))) == Ok(Some(CharacterArray(CharCells(s))))
  {
    EncodeLength(s);
  }

  /** The character cells written as a ','-joined list, one character or "." per cell. */
  function CellTexts(cs: seq<Option<char>>): seq<string>
  {
    seq(|cs|, i requires 0 <= i < |cs| => if cs[i].Some? then [cs[i].value] else ".")
  }

  lemma {:induction false} CharCellsAppend(a: string, b: string)
    ensures CharCells(a + b) == CharCells(a) + CharCells(b)
  {
    if a != [] {
      assert (a + b)[0] == a[0];
      assert (a + b)[1..] == a[1..] + b;
      CharCellsAppend(a[1..], b);
      if a[0] != ',' {
        var x: seq<Option<char>> := [if a[0] == '.' then None else Some(a[0])];
        assert CharCells(a + b) == x + CharCells(a[1..] + b);
        assert CharCells(a) == x + CharCells(a[1..]);
      }
    } else {
      assert a + b == b;
    }
  }

  /**
   * A character list written the VCF way (cells joined by ',', a missing cell as ".") reads
   * back as the same cells, as long as no cell is the character ',' or '.'.
   */
  lemma {:induction false} CharCellsJoin(cs: seq<Option<char>>)
    requires forall i :: 0 <= i < |cs| ==> cs[i] != Some(',') && cs[i] != Some('.')
    ensures CharCells(VcfGenotypesWriter.Join(CellTexts(cs), ',')) == cs
    decreases |cs|
  {
    var n := |cs|;
    if n == 1 {
      assert CellTexts(cs) == [CellTexts(cs)[0]];
    } else if n > 1 {
      var texts := CellTexts(cs);
      assert texts[..n - 1] == CellTexts(cs[..n - 1]);
      CharCellsJoin(cs[..n - 1]);
      var front := VcfGenotypesWriter.Join(texts[..n - 1], ',');
      CharCellsAppend(front + [','], texts[n - 1]);
      CharCellsAppend(front, [',']);
      assert CharCells([',']) == [];
      assert CharCells(texts[n - 1]) == [cs[n - 1]];
      assert cs[..n - 1] + [cs[n - 1]] == cs;
    }
  }

  /** The reader's own examples, on the decoded values. */
  lemma ConversionExamples()
    ensures IntegerValue(Some(Int8(Some(IntMissing)))) == Ok(None)
    ensures IntegerValue(Some(Int16(Some(IntValue(13))))) == Ok(Some(Integer(13)))
    ensures IntegerValue(Some(Int8Array([IntValue(8), IntMissing]))) == Ok(Some(IntegerArray([Some(8), None])))
    ensures FlagValue(None) == Ok(Some(Flag))
    ensures FlagValue(Some(Int8(Some(IntValue(0))))).Err?
    ensures CharacterValue(Some(String(Some("n")))) == Ok(Some(Character('n')))
    ensures CharacterValue(Some(String(Some("n,.")))) == Ok(Some(CharacterArray([Some('n'), None])))
    ensures StringValue(Some(String(Some("ndls")))) == Ok(Some(Text("ndls")))
  {
    SingleCharacters('n');
    LongStringIsList("n,.");
    assert "n,."[1..] == ",." && ",."[1..] == "." && "."[1..] == "";
    assert CharCells(".") == [None];
    assert CharCells(",.") == [None];
    assert CharCells("n,.") == [Some('n'), None];
    assert Widen([IntValue(8), IntMissing]) == [Some(8), None];
  }
}
