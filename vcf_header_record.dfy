/**
 * One VCF meta-information line ("##key=value"), turned into a typed header record. The line
 * grammar, the ID parsers, the map builders and the reserved-key tables are collaborators that
 * are not part of this model; they are passed in as `Collaborators`.
 */
module VcfHeaderRecord {
  import opened Wrappers
  import VcfFileFormat
  import VcfFormatType

  type Fields = seq<(string, string)>

  /** What the line grammar yields after "##key=": a plain string or a "<k=v,...>" structure. */
  datatype RawValue = StringValue(s: string) | Struct(fields: Fields)

  /** An INFO or FORMAT ID: one of the reserved keys, or any other name. */
  datatype FieldKey = StandardKey(name: string) | OtherKey(name: string)

  /** The Number field of an INFO or FORMAT record. */
  datatype Number = Count(n: nat) | AltAlleles | ReferenceAlternateAlleles | Samples | Unknown

  /** The Type field of an INFO record. */
  datatype InfoType = Integer | Float | Flag | Character | String

  /** A map with a Number and a Type (INFO, FORMAT); its other fields are kept as read. */
  datatype TypedMap<T> = TypedMap(number: Number, ty: T, fields: Fields)

  /** A map without a typed part (FILTER, ALT, contig, META, other structured records). */
  datatype PlainMap = PlainMap(fields: Fields)

  /** The error of a map builder, which this model does not look into. */
  datatype MapError = MapError(code: nat)

  datatype OtherValue = OtherString(s: string) | OtherMap(id: string, entries: PlainMap)

  datatype Record =
    | AlternativeAllele(symbol: string, altMap: PlainMap)
    | Assembly(assembly: string)
    | Contig(name: string, contigMap: PlainMap)
    | FileFormat(fileFormat: VcfFileFormat.FileFormat)
    | Filter(filterId: string, filterMap: PlainMap)
    | Format(formatId: FieldKey, formatMap: TypedMap<VcfFormatType.Type>)
    | Info(infoId: FieldKey, infoMap: TypedMap<InfoType>)
    | Meta(metaId: string, metaMap: PlainMap)
    | PedigreeDb(pedigreeDb: string)
    | Other(key: string, value: OtherValue)

  datatype ParseError =
    | Invalid
    | InvalidFileFormat(fe: VcfFileFormat.ParseError)
    | InvalidInfo(ie: MapError)
    | InvalidFilter(le: MapError)
    | InvalidFormat(me: MapError)
    | InvalidAlternativeAllele(ae: MapError)
    | InvalidContig(ce: MapError)
    | InvalidMeta(te: MapError)

  /** The functions the record parser calls and whose code is not part of this model. */
  datatype Collaborators = Collaborators(
    parseLine: string -> Option<(string, RawValue)>,
    parseInfoId: string -> Option<FieldKey>,
    parseFormatId: string -> Option<FieldKey>,
    parseSymbol: string -> Option<string>,
    parseContigName: string -> Option<string>,
    infoMap: (VcfFileFormat.FileFormat, Fields) -> Result<TypedMap<InfoType>, MapError>,
    formatMap: (VcfFileFormat.FileFormat, Fields) -> Result<TypedMap<VcfFormatType.Type>, MapError>,
    plainMap: (string, Fields) -> Result<PlainMap, MapError>,
    infoNumber: string -> Number,
    infoType: string -> InfoType,
    formatNumber: string -> Number,
    formatType: string -> VcfFormatType.Type)

  /** `get_field`: the value of the first pair whose key matches, or None. */
  function GetField(fields: Fields, key: string): (r: Option<string>)
    ensures r.None? <==> forall i :: 0 <= i < |fields| ==> fields[i].0 != key
    ensures r.Some? ==>
      exists i :: (0 <= i < |fields| && fields[i] == (key, r.value) &&
                   forall j :: 0 <= j < i ==> fields[j].0 != key)
  {
    if fields == [] then None
    else if fields[0].0 == key then Some(fields[0].1)
    else
      var r := GetField(fields[1..], key);
      if r.Some? then
        var i :| 0 <= i < |fields[1..]| && fields[1..][i] == (key, r.value) &&
          forall j :: 0 <= j < i ==> fields[1..][j].0 != key;
        assert fields[i + 1] == (key, r.value);
        r
      else r
  }

  /** The ≥ 4.3 check: the version compares at least 4.3 in the derived order. */
  predicate Validates(fileFormat: VcfFileFormat.FileFormat)
  {
    VcfFileFormat.Le(VcfFileFormat.FileFormat(4, 3), fileFormat)
  }

  /** `validate_info_type_fields` and `validate_format_type_fields`: Number first, then Type. */
  function ValidateTypeFields<T(==)>(expectedNumber: Number, expectedType: T, number: Number, ty: T)
    : (r: Result<(), ParseError>)
    ensures r.Ok? <==> number == expectedNumber && ty == expectedType
    ensures r.Err? ==> r.error == Invalid
  {
    if number != expectedNumber then Err(Invalid)
    else if ty != expectedType then Err(Invalid)
    else Ok(())
  }

  function ParseInfo(fileFormat: VcfFileFormat.FileFormat, fields: Fields, c: Collaborators)
    : Result<Record, ParseError>
  {
    match GetField(fields, "ID")
    case None => Err(Invalid)
    case Some(raw) =>
      match c.parseInfoId(raw)
      case None => Err(Invalid)
      case Some(id) =>
        match c.infoMap(fileFormat, fields)
        case Err(e) => Err(InvalidInfo(e))
        case Ok(m) =>
          if Validates(fileFormat) && id.StandardKey? then
            match ValidateTypeFields(c.infoNumber(id.name), c.infoType(id.name), m.number, m.ty)
            case Err(e) => Err(e)
            case Ok(_) => Ok(Info(id, m))
          else Ok(Info(id, m))
  }

  function ParseFormat(fileFormat: VcfFileFormat.FileFormat, fields: Fields, c: Collaborators)
    : Result<Record, ParseError>
  {
    match GetField(fields, "ID")
    case None => Err(Invalid)
    case Some(raw) =>
      match c.parseFormatId(raw)
      case None => Err(Invalid)
      case Some(id) =>
        match c.formatMap(fileFormat, fields)
        case Err(_) => Err(Invalid)
        case Ok(m) =>
          if Validates(fileFormat) && id.StandardKey? then
            match ValidateTypeFields(c.formatNumber(id.name), c.formatType(id.name), m.number, m.ty)
            case Err(e) => Err(e)
            case Ok(_) => Ok(Format(id, m))
          else Ok(Format(id, m))
  }

  /** The ID of a FILTER, ALT, contig, META or other structured record, parsed by `parseId`. */
  function ParseIdentified(kind: string, fields: Fields, parseId: string -> Option<string>, c: Collaborators)
    : Result<(string, PlainMap), ParseError>
  {
    match GetField(fields, "ID")
    case None => Err(Invalid)
    case Some(raw) =>
      match parseId(raw)
      case None => Err(Invalid)
      case Some(id) =>
        match c.plainMap(kind, fields)
        case Err(_) => Err(Invalid)
        case Ok(m) => Ok((id, m))
  }

  function Verbatim(s: string): Option<string> { Some(s) }

  /** The keys that have their own record kind; any other key gives an Other record. */
  const NamedKeys: set<string> :=
    {"fileformat", "INFO", "FILTER", "FORMAT", "ALT", "assembly", "contig", "META", "pedigreeDB"}

  /** Keys whose value must be a plain string. */
  const StringKeys: set<string> := {"fileformat", "assembly", "pedigreeDB"}

  /**
   * `TryFrom<(FileFormat, &str)>`: the line is split by the grammar, then dispatched on its key.
   * fileformat, assembly and pedigreeDB take a string; INFO, FILTER, FORMAT, ALT, contig and META
   * take a structure with an ID; any other key keeps a string as is and needs an ID in a structure.
   */
  function TryFrom(fileFormat: VcfFileFormat.FileFormat, s: string, c: Collaborators)
    : (r: Result<Record, ParseError>)
    ensures c.parseLine(s).None? ==> r == Err(Invalid)
    ensures c.parseLine(s).Some? ==>
      var (key, value) := c.parseLine(s).value;
      && (key in StringKeys && value.Struct? ==> r == Err(Invalid))
      && (key in NamedKeys - StringKeys && value.StringValue? ==> r == Err(Invalid))
      && (value.Struct? && GetField(value.fields, "ID").None? ==> r == Err(Invalid))
      && (key !in NamedKeys && value.StringValue? ==> r == Ok(Other(key, OtherString(value.s))))
      && (key == "assembly" && value.StringValue? ==> r == Ok(Assembly(value.s)))
      && (key == "pedigreeDB" && value.StringValue? ==> r == Ok(PedigreeDb(value.s)))
      && (key == "fileformat" && value.StringValue? ==>
            match VcfFileFormat.Parse(value.s)
            case Ok(f) => r == Ok(FileFormat(f))
            case Err(e) => r == Err(InvalidFileFormat(e)))
    ensures r.Ok? && r.value.Info? && Validates(fileFormat) && r.value.infoId.StandardKey? ==>
      r.value.infoMap.number == c.infoNumber(r.value.infoId.name) &&
      r.value.infoMap.ty == c.infoType(r.value.infoId.name)
    ensures r.Ok? && r.value.Format? && Validates(fileFormat) && r.value.formatId.StandardKey? ==>
      r.value.formatMap.number == c.formatNumber(r.value.formatId.name) &&
      r.value.formatMap.ty == c.formatType(r.value.formatId.name)
  {
    match c.parseLine(s)
    case None => Err(Invalid)
    case Some((key, value)) =>
      match key
      case "fileformat" =>
        (match value
         case StringValue(t) =>
           (match VcfFileFormat.Parse(t)
            case Ok(f) => Ok(FileFormat(f))
            case Err(e) => Err(InvalidFileFormat(e)))
         case Struct(_) => Err(Invalid))
      case "INFO" =>
        (match value
         case Struct(fields) => ParseInfo(fileFormat, fields, c)
         case StringValue(_) => Err(Invalid))
      case "FILTER" =>
        (match value
         case Struct(fields) =>
           (match ParseIdentified(key, fields, Verbatim, c)
            case Ok((id, m)) => Ok(Filter(id, m))
            case Err(e) => Err(e))
         case StringValue(_) => Err(Invalid))
      case "FORMAT" =>
        (match value
         case Struct(fields) => ParseFormat(fileFormat, fields, c)
         case StringValue(_) => Err(Invalid))
      case "ALT" =>
        (match value
         case Struct(fields) =>
           (match ParseIdentified(key, fields, c.parseSymbol, c)
            case Ok((id, m)) => Ok(AlternativeAllele(id, m))
            case Err(e) => Err(e))
         case StringValue(_) => Err(Invalid))
      case "assembly" =>
        (match value
         case StringValue(t) => Ok(Assembly(t))
         case Struct(_) => Err(Invalid))
      case "contig" =>
        (match value
         case Struct(fields) =>
           (match ParseIdentified(key, fields, c.parseContigName, c)
            case Ok((id, m)) => Ok(Contig(id, m))
            case Err(e) => Err(e))
         case StringValue(_) => Err(Invalid))
      case "META" =>
        (match value
         case Struct(fields) =>
           (match ParseIdentified(key, fields, Verbatim, c)
            case Ok((id, m)) => Ok(Meta(id, m))
            case Err(e) => Err(e))
         case StringValue(_) => Err(Invalid))
      case "pedigreeDB" =>
        (match value
         case StringValue(t) => Ok(PedigreeDb(t))
         case Struct(_) => Err(Invalid))
      case _ =>
        (match value
         case StringValue(t) => Ok(Other(key, OtherString(t)))
         case Struct(fields) =>
           (match ParseIdentified(key, fields, Verbatim, c)
            case Ok((id, m)) => Ok(Other(key, OtherMap(id, m)))
            case Err(e) => Err(e)))
  }

  /**
   * An INFO structure: a missing or unparsable ID is Invalid and a map error is InvalidInfo.
   * Once the ID and the map are read, the record is Invalid exactly when the version is at least
   * 4.3, the ID is reserved, and the Number or the Type differs from the reserved key's; otherwise
   * it is the INFO record of that ID and map.
   */
  lemma InfoRecordCases(fileFormat: VcfFileFormat.FileFormat, s: string, c: Collaborators)
    requires c.parseLine(s).Some? && c.parseLine(s).value.0 == "INFO" && c.parseLine(s).value.1.Struct?
    ensures var fields := c.parseLine(s).value.1.fields;
      var r := TryFrom(fileFormat, s, c);
      && (GetField(fields, "ID").None? ==> r == Err(Invalid))
      && (GetField(fields, "ID").Some? && c.parseInfoId(GetField(fields, "ID").value).None? ==> r == Err(Invalid))
      && (GetField(fields, "ID").Some? && c.parseInfoId(GetField(fields, "ID").value).Some? ==>
            var id := c.parseInfoId(GetField(fields, "ID").value).value;
            && (c.infoMap(fileFormat, fields).Err? ==> r == Err(InvalidInfo(c.infoMap(fileFormat, fields).error)))
            && (c.infoMap(fileFormat, fields).Ok? ==>
                  var m := c.infoMap(fileFormat, fields).value;
                  var mismatch := m.number != c.infoNumber(id.name) || m.ty != c.infoType(id.name);
                  && (Validates(fileFormat) && id.StandardKey? && mismatch ==> r == Err(Invalid))
                  && (!(Validates(fileFormat) && id.StandardKey? && mismatch) ==> r == Ok(Info(id, m)))))
  {
  }

  /**
   * A FORMAT structure: a missing or unparsable ID and a map error are Invalid. Once the ID and
   * the map are read, the record is Invalid exactly when the version is at least 4.3, the ID is
   * reserved, and the Number or the Type differs from the reserved key's; otherwise it is the
   * FORMAT record of that ID and map.
   */
  lemma FormatRecordCases(fileFormat: VcfFileFormat.FileFormat, s: string, c: Collaborators)
    requires c.parseLine(s).Some? && c.parseLine(s).value.0 == "FORMAT" && c.parseLine(s).value.1.Struct?
    ensures var fields := c.parseLine(s).value.1.fields;
      var r := TryFrom(fileFormat, s, c);
      && (GetField(fields, "ID").None? ==> r == Err(Invalid))
      && (GetField(fields, "ID").Some? && c.parseFormatId(GetField(fields, "ID").value).None? ==> r == Err(Invalid))
      && (GetField(fields, "ID").Some? && c.parseFormatId(GetField(fields, "ID").value).Some? ==>
            var id := c.parseFormatId(GetField(fields, "ID").value).value;
            && (c.formatMap(fileFormat, fields).Err? ==> r == Err(Invalid))
            && (c.formatMap(fileFormat, fields).Ok? ==>
                  var m := c.formatMap(fileFormat, fields).value;
                  var mismatch := m.number != c.formatNumber(id.name) || m.ty != c.formatType(id.name);
                  && (Validates(fileFormat) && id.StandardKey? && mismatch ==> r == Err(Invalid))
                  && (!(Validates(fileFormat) && id.StandardKey? && mismatch) ==> r == Ok(Format(id, m)))))
  {
  }

  /**
   * Below 4.3, a FORMAT record is never checked against the reserved-key tables: once the ID
   * and the map are read, the record is accepted whatever its Number and Type.
   */
  lemma NoFormatValidationBefore43(fileFormat: VcfFileFormat.FileFormat, s: string, c: Collaborators)
    requires !Validates(fileFormat)
    requires c.parseLine(s).Some? && c.parseLine(s).value.1.Struct?
    requires var fields := c.parseLine(s).value.1.fields;
      GetField(fields, "ID").Some? && c.parseFormatId(GetField(fields, "ID").value).Some? &&
      c.formatMap(fileFormat, fields).Ok?
    requires c.parseLine(s).value.0 == "FORMAT"
    ensures var fields := c.parseLine(s).value.1.fields;
      TryFrom(fileFormat, s, c) ==
        Ok(Format(c.parseFormatId(GetField(fields, "ID").value).value, c.formatMap(fileFormat, fields).value))
  {
  }

  /**
   * Below 4.3, an INFO record is never checked against the reserved-key tables: once the ID
   * and the map are read, the record is accepted whatever its Number and Type.
   */
  lemma NoValidationBefore43(fileFormat: VcfFileFormat.FileFormat, s: string, c: Collaborators)
    requires !Validates(fileFormat)
    requires c.parseLine(s).Some? && c.parseLine(s).value.1.Struct?
    requires var fields := c.parseLine(s).value.1.fields;
      GetField(fields, "ID").Some? && c.parseInfoId(GetField(fields, "ID").value).Some? &&
      c.infoMap(fileFormat, fields).Ok?
    requires c.parseLine(s).value.0 == "INFO"
    ensures var fields := c.parseLine(s).value.1.fields;
      TryFrom(fileFormat, s, c) ==
        Ok(Info(c.parseInfoId(GetField(fields, "ID").value).value, c.infoMap(fileFormat, fields).value))
  {
  }

  /** `from_str`: the record is read as if the file format were the default, 4.4. */
  function FromStr(s: string, c: Collaborators): (r: Result<Record, ParseError>)
    ensures Validates(VcfFileFormat.Default)
    ensures r == TryFrom(VcfFileFormat.Default, s, c)
  {
    TryFrom(VcfFileFormat.Default, s, c)
  }
}
