/**
 * The value of a SAM @SQ header record: a reference sequence, whose length is always set.
 *
 * The alternative locus (AH), alternative names (AN), MD5 checksum (M5) and molecule topology
 * (TP) have parsers of their own, which are not part of this model: they are passed in, and a
 * parsed value is kept as the text its `Display` writes.
 */
module SamReferenceSequence {
  import opened Wrappers
  import opened RustNum
  import opened SamHeaderMap

  datatype StandardTag =
    | Name | Length | AlternativeLocus | AlternativeNames | AssemblyId
    | Description | Md5Checksum | Species | MoleculeTopology | Uri

  /** A `NonZeroUsize`. */
  type Length = n: nat | 1 <= n <= USIZE_MAX witness 1

  /** The parsers of the four structured values; None when the text is not a valid value. */
  datatype ValueParsers = ValueParsers(
    alternativeLocus: string -> Option<string>,
    alternativeNames: string -> Option<string>,
    md5Checksum: string -> Option<string>,
    moleculeTopology: string -> Option<string>)

  /** `Map<ReferenceSequence>`. The name (SN) is not kept here. */
  datatype ReferenceSequence = ReferenceSequence(
    length: Length,
    alternativeLocus: Option<string>,
    alternativeNames: Option<string>,
    assemblyId: Option<string>,
    description: Option<string>,
    md5Checksum: Option<string>,
    species: Option<string>,
    moleculeTopology: Option<string>,
    uri: Option<string>,
    otherFields: OtherFields)

  /** The local variables of the `try_from` loop: every field optional, the length included. */
  datatype Accumulated = Accumulated(
    length: Option<Length>,
    alternativeLocus: Option<string>,
    alternativeNames: Option<string>,
    assemblyId: Option<string>,
    description: Option<string>,
    md5Checksum: Option<string>,
    species: Option<string>,
    moleculeTopology: Option<string>,
    uri: Option<string>,
    otherFields: OtherFields)

  const NoneSet: Accumulated := Accumulated(None, None, None, None, None, None, None, None, None, [])

  /** `NonZeroUsize::from_str`: a `usize` in decimal, and not 0. */
  function ParseLength(s: string): Option<Length>
  {
    match ParseUnsigned(s, USIZE_MAX)
    case Err(_) => None
    case Ok(n) => if n == 0 then None else Some(n)
  }

  /** A length is accepted exactly when the text is a `usize` other than 0, and it is that number. */
  lemma ParseLengthSpec(s: string)
    ensures ParseLength(s).Some? <==> ParseUnsigned(s, USIZE_MAX).Ok? && ParseUnsigned(s, USIZE_MAX).value != 0
    ensures ParseLength(s).Some? ==> ParseLength(s).value == ParseUnsigned(s, USIZE_MAX).value
    ensures ParseLength("0") == None && ParseLength("NA") == None
  {
    ParseUnsignedOk("0", USIZE_MAX);
    ParseUnsignedOk("NA", USIZE_MAX);
    assert !IsDigit("NA"[0]);
  }

  /** The decimal text of a length parses back to it. */
  lemma ParseLengthText(n: Length)
    ensures ParseLength(NatToString(n)) == Some(n)
  {
    ParseNatToString(n, USIZE_MAX);
  }

  /** A structured value: stored when its parser accepts the text, otherwise InvalidValue(tag). */
  function ParseValue(parse: string -> Option<string>, value: string, tag: string): Result<Option<string>, TryFromFieldsError>
  {
    match parse(value)
    case None => Err(InvalidValue(tag))
    case Some(x) => Ok(Some(x))
  }

  /** One iteration of the `try_from` loop. */
  function Step(a: Accumulated, field: (string, string), p: MapParsers<StandardTag>, v: ValueParsers)
    : Result<Accumulated, TryFromFieldsError>
  {
    var value := field.1;
    match p.parseTag(field.0)
    case None => Err(InvalidTag)
    case Some(Standard(Name)) => Ok(a)
    case Some(Standard(Length)) =>
      (match ParseLength(value)
       case None => Err(InvalidValue("LN"))
       case Some(n) => Ok(a.(length := Some(n))))
    case Some(Standard(AlternativeLocus)) =>
      (match ParseValue(v.alternativeLocus, value, "AH")
       case Err(e) => Err(e)
       case Ok(x) => Ok(a.(alternativeLocus := x)))
    case Some(Standard(AlternativeNames)) =>
      (match ParseValue(v.alternativeNames, value, "AN")
       case Err(e) => Err(e)
       case Ok(x) => Ok(a.(alternativeNames := x)))
    case Some(Standard(AssemblyId)) => Ok(a.(assemblyId := Some(value)))
    case Some(Standard(Description)) => Ok(a.(description := Some(value)))
    case Some(Standard(Md5Checksum)) =>
      (match ParseValue(v.md5Checksum, value, "M5")
       case Err(e) => Err(e)
       case Ok(x) => Ok(a.(md5Checksum := x)))
    case Some(Standard(Species)) => Ok(a.(species := Some(value)))
    case Some(Standard(MoleculeTopology)) =>
      (match ParseValue(v.moleculeTopology, value, "TP")
       case Err(e) => Err(e)
       case Ok(x) => Ok(a.(moleculeTopology := x)))
    case Some(Standard(Uri)) => Ok(a.(uri := Some(value)))
    case Some(Other(t)) =>
      (match p.insertOtherField(a.otherFields, t, value)
       case Err(e) => Err(e)
       case Ok(others) => Ok(a.(otherFields := others)))
  }

  /** The fields applied in order to `a`, stopping at the first error. */
  function StepAll(a: Accumulated, fields: Fields, p: MapParsers<StandardTag>, v: ValueParsers)
    : Result<Accumulated, TryFromFieldsError>
  {
    if fields == [] then Ok(a)
    else
      match StepAll(a, fields[..|fields| - 1], p, v)
      case Err(e) => Err(e)
      case Ok(prev) => Step(prev, fields[|fields| - 1], p, v)
  }

  /** After the loop: a missing length is MissingField("LN"). */
  function Complete(a: Accumulated): Result<ReferenceSequence, TryFromFieldsError>
  {
    match a.length
    case None => Err(MissingField("LN"))
    case Some(n) =>
      Ok(ReferenceSequence(n, a.alternativeLocus, a.alternativeNames, a.assemblyId, a.description,
        a.md5Checksum, a.species, a.moleculeTopology, a.uri, a.otherFields))
  }

  /** `TryFrom<Fields>`. */
  function TryFromFields(fields: Fields, p: MapParsers<StandardTag>, v: ValueParsers)
    : Result<ReferenceSequence, TryFromFieldsError>
  {
    match StepAll(NoneSet, fields, p, v)
    case Err(e) => Err(e)
    case Ok(a) => Complete(a)
  }

  lemma {:induction false} StepAllAppend(a: Accumulated, x: Fields, y: Fields, p: MapParsers<StandardTag>, v: ValueParsers)
    ensures StepAll(a, x + y, p, v) ==
      match StepAll(a, x, p, v)
      case Err(e) => Err(e)
      case Ok(prev) => StepAll(prev, y, p, v)
    decreases |y|
  {
    if y == [] {
      assert x + y == x;
    } else {
      var n := |y| - 1;
      assert (x + y)[..|x + y| - 1] == x + y[..n];
      StepAllAppend(a, x, y[..n], p, v);
    }
  }

  /** Once a prefix of the fields fails, the whole loop fails with the same error. */
  lemma StepAllErrSticky(a: Accumulated, fields: Fields, n: nat, p: MapParsers<StandardTag>, v: ValueParsers)
    requires n <= |fields| && StepAll(a, fields[..n], p, v).Err?
    ensures StepAll(a, fields, p, v) == StepAll(a, fields[..n], p, v)
  {
    StepAllAppend(a, fields[..n], fields[n..], p, v);
    assert fields[..n] + fields[n..] == fields;
  }

  method TryFrom(fields: Fields, p: MapParsers<StandardTag>, v: ValueParsers)
    returns (r: Result<ReferenceSequence, TryFromFieldsError>)
    ensures r == TryFromFields(fields, p, v)
  {
    var length: Option<Length> := None;
    var alternativeLocus, alternativeNames, assemblyId, description := None, None, None, None;
    var md5Checksum, species, moleculeTopology, uri := None, None, None, None;
    var otherFields: OtherFields := [];
    for i := 0 to |fields|
      invariant StepAll(NoneSet, fields[..i], p, v) == Ok(Accumulated(length, alternativeLocus,
        alternativeNames, assemblyId, description, md5Checksum, species, moleculeTopology, uri, otherFields))
    {
      var key, value := fields[i].0, fields[i].1;
      assert fields[..i + 1][..i] == fields[..i];
      var tag := p.parseTag(key);
      if tag.None? {
        StepAllErrSticky(NoneSet, fields, i + 1, p, v);
        return Err(InvalidTag);
      }
      var parsed: Result<Option<string>, TryFromFieldsError> := Ok(None);
      match tag.value {
        case Standard(Name) =>
        case Standard(Length) =>
          var n := ParseLength(value);
          if n.None? {
            StepAllErrSticky(NoneSet, fields, i + 1, p, v);
            return Err(InvalidValue("LN"));
          }
          length := n;
        case Standard(AlternativeLocus) =>
          parsed := ParseValue(v.alternativeLocus, value, "AH");
          if parsed.Ok? { alternativeLocus := parsed.value; }
        case Standard(AlternativeNames) =>
          parsed := ParseValue(v.alternativeNames, value, "AN");
          if parsed.Ok? { alternativeNames := parsed.value; }
        case Standard(AssemblyId) => assemblyId := Some(value);
        case Standard(Description) => description := Some(value);
        case Standard(Md5Checksum) =>
          parsed := ParseValue(v.md5Checksum, value, "M5");
          if parsed.Ok? { md5Checksum := parsed.value; }
        case Standard(Species) => species := Some(value);
        case Standard(MoleculeTopology) =>
          parsed := ParseValue(v.moleculeTopology, value, "TP");
          if parsed.Ok? { moleculeTopology := parsed.value; }
        case Standard(Uri) => uri := Some(value);
        case Other(t) =>
          var inserted := p.insertOtherField(otherFields, t, value);
          if inserted.Err? {
            parsed := Err(inserted.error);
          } else {
            otherFields := inserted.value;
          }
      }
      if parsed.Err? {
        StepAllErrSticky(NoneSet, fields, i + 1, p, v);
        return Err(parsed.error);
      }
    }
    assert fields[..|fields|] == fields;
    if length.None? {
      return Err(MissingField("LN"));
    }
    return Ok(ReferenceSequence(length.value, alternativeLocus, alternativeNames, assemblyId, description,
      md5Checksum, species, moleculeTopology, uri, otherFields));
  }

  /** The parsed value of an optional text: None when absent, else what the parser makes of it. */
  function ParsedLast<T>(last: Option<string>, parse: string -> Option<T>): Option<T>
  {
    if last.Some? then parse(last.value) else None
  }

  /** What the loop has collected when it succeeds: for each tag, the value of its last field. */
  ghost predicate HoldsLastValues(a: Accumulated, fields: Fields, p: MapParsers<StandardTag>, v: ValueParsers)
  {
    && a.length == ParsedLast(LastValue(fields, p.parseTag, Standard(Length)), ParseLength)
    && a.alternativeLocus == ParsedLast(LastValue(fields, p.parseTag, Standard(AlternativeLocus)), v.alternativeLocus)
    && a.alternativeNames == ParsedLast(LastValue(fields, p.parseTag, Standard(AlternativeNames)), v.alternativeNames)
    && a.assemblyId == LastValue(fields, p.parseTag, Standard(AssemblyId))
    && a.description == LastValue(fields, p.parseTag, Standard(Description))
    && a.md5Checksum == ParsedLast(LastValue(fields, p.parseTag, Standard(Md5Checksum)), v.md5Checksum)
    && a.species == LastValue(fields, p.parseTag, Standard(Species))
    && a.moleculeTopology == ParsedLast(LastValue(fields, p.parseTag, Standard(MoleculeTopology)), v.moleculeTopology)
    && a.uri == LastValue(fields, p.parseTag, Standard(Uri))
  }

  /** The value a field gives a standard tag: its own when the field has that tag, else `previous`. */
  function Overwrite<T>(tag: Option<Tag<StandardTag>>, t: StandardTag, value: Option<T>, previous: Option<T>): Option<T>
  {
    if tag == Some(Standard(t)) then value else previous
  }

  /** A successful step sets the field its tag names (to the parsed value) and keeps the others. */
  lemma StepEffect(a: Accumulated, field: (string, string), p: MapParsers<StandardTag>, v: ValueParsers)
    requires Step(a, field, p, v).Ok?
    ensures var b, tag, x := Step(a, field, p, v).value, p.parseTag(field.0), field.1;
      && b.length == Overwrite(tag, Length, ParseLength(x), a.length)
      && b.alternativeLocus == Overwrite(tag, AlternativeLocus, v.alternativeLocus(x), a.alternativeLocus)
      && b.alternativeNames == Overwrite(tag, AlternativeNames, v.alternativeNames(x), a.alternativeNames)
      && b.assemblyId == Overwrite(tag, AssemblyId, Some(x), a.assemblyId)
      && b.description == Overwrite(tag, Description, Some(x), a.description)
      && b.md5Checksum == Overwrite(tag, Md5Checksum, v.md5Checksum(x), a.md5Checksum)
      && b.species == Overwrite(tag, Species, Some(x), a.species)
      && b.moleculeTopology == Overwrite(tag, MoleculeTopology, v.moleculeTopology(x), a.moleculeTopology)
      && b.uri == Overwrite(tag, Uri, Some(x), a.uri)
  {
  }

  lemma {:induction false} StepAllLastWins(fields: Fields, p: MapParsers<StandardTag>, v: ValueParsers)
    requires StepAll(NoneSet, fields, p, v).Ok?
    ensures HoldsLastValues(StepAll(NoneSet, fields, p, v).value, fields, p, v)
  {
    if fields != [] {
      var n := |fields| - 1;
      StepAllLastWins(fields[..n], p, v);
      StepEffect(StepAll(NoneSet, fields[..n], p, v).value, fields[n], p, v);
    }
  }

  /**
   * A conversion that succeeds holds, for each standard field, the value of the last field with
   * that tag (a repeated tag overwrites the earlier one; the name is read but not kept), the length
   * included; when the loop succeeds without any LN field the conversion is MissingField("LN").
   */
  lemma TryFromLastWins(fields: Fields, p: MapParsers<StandardTag>, v: ValueParsers)
    requires StepAll(NoneSet, fields, p, v).Ok?
    ensures var r := TryFromFields(fields, p, v);
      && (r.Ok? <==> LastValue(fields, p.parseTag, Standard(Length)).Some?)
      && (r.Err? ==> r.error == MissingField("LN"))
      && (r.Ok? ==>
            && Some(r.value.length) == ParseLength(LastValue(fields, p.parseTag, Standard(Length)).value)
            && r.value.alternativeLocus == ParsedLast(LastValue(fields, p.parseTag, Standard(AlternativeLocus)), v.alternativeLocus)
            && r.value.alternativeNames == ParsedLast(LastValue(fields, p.parseTag, Standard(AlternativeNames)), v.alternativeNames)
            && r.value.assemblyId == LastValue(fields, p.parseTag, Standard(AssemblyId))
            && r.value.description == LastValue(fields, p.parseTag, Standard(Description))
            && r.value.md5Checksum == ParsedLast(LastValue(fields, p.parseTag, Standard(Md5Checksum)), v.md5Checksum)
            && r.value.species == LastValue(fields, p.parseTag, Standard(Species))
            && r.value.moleculeTopology == ParsedLast(LastValue(fields, p.parseTag, Standard(MoleculeTopology)), v.moleculeTopology)
            && r.value.uri == LastValue(fields, p.parseTag, Standard(Uri)))
  {
    StepAllLastWins(fields, p, v);
  }

  /**
   * An LN field whose value is not a nonzero `usize`, after fields that all succeed, makes the
   * conversion InvalidValue("LN").
   */
  lemma TryFromInvalidLength(fields: Fields, i: nat, p: MapParsers<StandardTag>, v: ValueParsers)
    requires i < |fields| && p.parseTag(fields[i].0) == Some(Standard(Length)) && ParseLength(fields[i].1).None?
    requires StepAll(NoneSet, fields[..i], p, v).Ok?
    ensures TryFromFields(fields, p, v) == Err(InvalidValue("LN"))
  {
    assert fields[..i + 1][..i] == fields[..i];
    StepAllErrSticky(NoneSet, fields, i + 1, p, v);
  }

  /**
   * A field whose tag does not parse, after fields that all succeed, makes the conversion
   * InvalidTag.
   */
  lemma TryFromInvalidTag(fields: Fields, i: nat, p: MapParsers<StandardTag>, v: ValueParsers)
    requires i < |fields| && p.parseTag(fields[i].0).None?
    requires StepAll(NoneSet, fields[..i], p, v).Ok?
    ensures TryFromFields(fields, p, v) == Err(InvalidTag)
  {
    assert fields[..i + 1][..i] == fields[..i];
    StepAllErrSticky(NoneSet, fields, i + 1, p, v);
  }

  /** The tests at reference_sequence.rs:400-423: no fields, "LN:NA" and "LN:0". */
  lemma TryFromLengthExamples(p: MapParsers<StandardTag>, v: ValueParsers)
    requires p.parseTag("LN") == Some(Standard(Length))
    ensures TryFromFields([], p, v) == Err(MissingField("LN"))
    ensures TryFromFields([("LN", "NA")], p, v) == Err(InvalidValue("LN"))
    ensures TryFromFields([("LN", "0")], p, v) == Err(InvalidValue("LN"))
  {
    ParseLengthSpec("0");
    TryFromInvalidLength([("LN", "NA")], 0, p, v);
    TryFromInvalidLength([("LN", "0")], 0, p, v);
  }

  /** The text of the first four optional fields, in Display order: AH, AN, AS, DS. */
  function HeadText(m: ReferenceSequence): string
  {
    OptionalText("AH", m.alternativeLocus) + OptionalText("AN", m.alternativeNames)
      + OptionalText("AS", m.assemblyId) + OptionalText("DS", m.description)
  }

  /** The text of the last four optional fields, in Display order: M5, SP, TP, UR. */
  function TailText(m: ReferenceSequence): string
  {
    OptionalText("M5", m.md5Checksum) + OptionalText("SP", m.species)
      + OptionalText("TP", m.moleculeTopology) + OptionalText("UR", m.uri)
  }

  /** `Display`: "\tLN:" and the length, each present optional field as "\tTAG:value", then the other fields. */
  function DisplayText(m: ReferenceSequence, otherFieldsText: OtherFields -> string): string
  {
    FieldText("LN", NatToString(m.length)) + (HeadText(m) + TailText(m)) + otherFieldsText(m.otherFields)
  }

  function HeadFields(m: ReferenceSequence): Fields
  {
    OptionalField("AH", m.alternativeLocus) + OptionalField("AN", m.alternativeNames)
      + OptionalField("AS", m.assemblyId) + OptionalField("DS", m.description)
  }

  function TailFields(m: ReferenceSequence): Fields
  {
    OptionalField("M5", m.md5Checksum) + OptionalField("SP", m.species)
      + OptionalField("TP", m.moleculeTopology) + OptionalField("UR", m.uri)
  }

  /** The fields Display writes: LN, then the present optional ones in Display order. */
  function StandardFields(m: ReferenceSequence): Fields
  {
    [("LN", NatToString(m.length))] + (HeadFields(m) + TailFields(m))
  }

  lemma HeadFieldsText(m: ReferenceSequence)
    ensures FieldsText(HeadFields(m)) == HeadText(m)
  {
    var ah, an := OptionalField("AH", m.alternativeLocus), OptionalField("AN", m.alternativeNames);
    var as_, ds := OptionalField("AS", m.assemblyId), OptionalField("DS", m.description);
    FieldsTextAppend(ah, an);
    FieldsTextAppend(ah + an, as_);
    FieldsTextAppend(ah + an + as_, ds);
    OptionalFieldText("AH", m.alternativeLocus);
    OptionalFieldText("AN", m.alternativeNames);
    OptionalFieldText("AS", m.assemblyId);
    OptionalFieldText("DS", m.description);
  }

  lemma TailFieldsText(m: ReferenceSequence)
    ensures FieldsText(TailFields(m)) == TailText(m)
  {
    var m5, sp := OptionalField("M5", m.md5Checksum), OptionalField("SP", m.species);
    var tp, ur := OptionalField("TP", m.moleculeTopology), OptionalField("UR", m.uri);
    FieldsTextAppend(m5, sp);
    FieldsTextAppend(m5 + sp, tp);
    FieldsTextAppend(m5 + sp + tp, ur);
    OptionalFieldText("M5", m.md5Checksum);
    OptionalFieldText("SP", m.species);
    OptionalFieldText("TP", m.moleculeTopology);
    OptionalFieldText("UR", m.uri);
  }

  lemma LineText(lengthText: string, m: ReferenceSequence)
    ensures FieldText("LN", lengthText) + (HeadText(m) + TailText(m))
      == FieldsText([("LN", lengthText)] + (HeadFields(m) + TailFields(m)))
  {
    FieldsTextCons("LN", lengthText, HeadFields(m) + TailFields(m));
    FieldsTextAppend(HeadFields(m), TailFields(m));
    HeadFieldsText(m);
    TailFieldsText(m);
  }

  /** Display writes the length first, then exactly the present standard fields, in order. */
  lemma DisplayWritesStandardFields(m: ReferenceSequence, otherFieldsText: OtherFields -> string)
    ensures DisplayText(m, otherFieldsText) == FieldsText(StandardFields(m)) + otherFieldsText(m.otherFields)
  {
    LineText(NatToString(m.length), m);
  }

  /** The tag parser knows the standard tags by their two-letter names. */
  predicate ParsesStandardTags(p: MapParsers<StandardTag>)
  {
    && p.parseTag("SN") == Some(Standard(Name)) && p.parseTag("LN") == Some(Standard(Length))
    && p.parseTag("AH") == Some(Standard(AlternativeLocus)) && p.parseTag("AN") == Some(Standard(AlternativeNames))
    && p.parseTag("AS") == Some(Standard(AssemblyId)) && p.parseTag("DS") == Some(Standard(Description))
    && p.parseTag("M5") == Some(Standard(Md5Checksum)) && p.parseTag("SP") == Some(Standard(Species))
    && p.parseTag("TP") == Some(Standard(MoleculeTopology)) && p.parseTag("UR") == Some(Standard(Uri))
  }

  /** Each structured value the map holds is accepted by its parser as written. */
  predicate ValuesReparse(m: ReferenceSequence, v: ValueParsers)
  {
    && (m.alternativeLocus.Some? ==> v.alternativeLocus(m.alternativeLocus.value) == m.alternativeLocus)
    && (m.alternativeNames.Some? ==> v.alternativeNames(m.alternativeNames.value) == m.alternativeNames)
    && (m.md5Checksum.Some? ==> v.md5Checksum(m.md5Checksum.value) == m.md5Checksum)
    && (m.moleculeTopology.Some? ==> v.moleculeTopology(m.moleculeTopology.value) == m.moleculeTopology)
  }

  lemma StepOptional(a: Accumulated, tag: string, value: Option<string>, p: MapParsers<StandardTag>, v: ValueParsers)
    ensures StepAll(a, OptionalField(tag, value), p, v)
      == if value.Some? then Step(a, (tag, value.value), p, v) else Ok(a)
  {
    if value.Some? {
      assert OptionalField(tag, value)[..0] == [];
    }
  }

  /** The loop's state after reading LN and the first `k` optional fields Display writes for `m`. */
  function After(m: ReferenceSequence, k: nat): Accumulated
  {
    Accumulated(Some(m.length),
      if k > 0 then m.alternativeLocus else None,
      if k > 1 then m.alternativeNames else None,
      if k > 2 then m.assemblyId else None,
      if k > 3 then m.description else None,
      if k > 4 then m.md5Checksum else None,
      if k > 5 then m.species else None,
      if k > 6 then m.moleculeTopology else None,
      if k > 7 then m.uri else None,
      [])
  }

  /** The `k`-th optional field Display writes, as a list of fields (empty when absent). */
  function OptionalAt(m: ReferenceSequence, k: nat): Fields
  {
    if k == 0 then OptionalField("AH", m.alternativeLocus)
    else if k == 1 then OptionalField("AN", m.alternativeNames)
    else if k == 2 then OptionalField("AS", m.assemblyId)
    else if k == 3 then OptionalField("DS", m.description)
    else if k == 4 then OptionalField("M5", m.md5Checksum)
    else if k == 5 then OptionalField("SP", m.species)
    else if k == 6 then OptionalField("TP", m.moleculeTopology)
    else OptionalField("UR", m.uri)
  }

  lemma StepOptionalAt(m: ReferenceSequence, k: nat, p: MapParsers<StandardTag>, v: ValueParsers)
    requires k < 8 && ParsesStandardTags(p) && ValuesReparse(m, v)
    ensures StepAll(After(m, k), OptionalAt(m, k), p, v) == Ok(After(m, k + 1))
  {
    if k < 2 {
      StepAlternative(m, k, p, v);
    } else if k < 4 {
      StepAssemblyDescription(m, k, p, v);
    } else if k < 6 {
      StepChecksumSpecies(m, k, p, v);
    } else {
      StepTopologyUri(m, k, p, v);
    }
  }

  /** AH then AN. */
  lemma StepAlternative(m: ReferenceSequence, k: nat, p: MapParsers<StandardTag>, v: ValueParsers)
    requires k < 2 && ParsesStandardTags(p) && ValuesReparse(m, v)
    ensures StepAll(After(m, k), OptionalAt(m, k), p, v) == Ok(After(m, k + 1))
  {
    if k == 0 {
      StepOptional(After(m, k), "AH", m.alternativeLocus, p, v);
    } else {
      StepOptional(After(m, k), "AN", m.alternativeNames, p, v);
    }
  }

  /** AS then DS. */
  lemma StepAssemblyDescription(m: ReferenceSequence, k: nat, p: MapParsers<StandardTag>, v: ValueParsers)
    requires 2 <= k < 4 && ParsesStandardTags(p) && ValuesReparse(m, v)
    ensures StepAll(After(m, k), OptionalAt(m, k), p, v) == Ok(After(m, k + 1))
  {
    if k == 2 {
      StepOptional(After(m, k), "AS", m.assemblyId, p, v);
    } else {
      StepOptional(After(m, k), "DS", m.description, p, v);
    }
  }

  /** M5 then SP. */
  lemma StepChecksumSpecies(m: ReferenceSequence, k: nat, p: MapParsers<StandardTag>, v: ValueParsers)
    requires 4 <= k < 6 && ParsesStandardTags(p) && ValuesReparse(m, v)
    ensures StepAll(After(m, k), OptionalAt(m, k), p, v) == Ok(After(m, k + 1))
  {
    if k == 4 {
      StepOptional(After(m, k), "M5", m.md5Checksum, p, v);
    } else {
      StepOptional(After(m, k), "SP", m.species, p, v);
    }
  }

  /** TP then UR. */
  lemma StepTopologyUri(m: ReferenceSequence, k: nat, p: MapParsers<StandardTag>, v: ValueParsers)
    requires 6 <= k < 8 && ParsesStandardTags(p) && ValuesReparse(m, v)
    ensures StepAll(After(m, k), OptionalAt(m, k), p, v) == Ok(After(m, k + 1))
  {
    if k == 6 {
      StepOptional(After(m, k), "TP", m.moleculeTopology, p, v);
    } else {
      StepOptional(After(m, k), "UR", m.uri, p, v);
    }
  }

  /** Reading the optional fields `k`, `k + 1`, `k + 2`, `k + 3` advances the loop's state by four. */
  lemma StepFour(m: ReferenceSequence, k: nat, p: MapParsers<StandardTag>, v: ValueParsers)
    requires k + 4 <= 8 && ParsesStandardTags(p) && ValuesReparse(m, v)
    ensures StepAll(After(m, k), OptionalAt(m, k) + OptionalAt(m, k + 1) + OptionalAt(m, k + 2) + OptionalAt(m, k + 3), p, v)
      == Ok(After(m, k + 4))
  {
    var f0, f1, f2, f3 := OptionalAt(m, k), OptionalAt(m, k + 1), OptionalAt(m, k + 2), OptionalAt(m, k + 3);
    StepOptionalAt(m, k, p, v);
    StepOptionalAt(m, k + 1, p, v);
    StepOptionalAt(m, k + 2, p, v);
    StepOptionalAt(m, k + 3, p, v);
    StepAllAppend(After(m, k), f0, f1, p, v);
    StepAllAppend(After(m, k), f0 + f1, f2, p, v);
    StepAllAppend(After(m, k), f0 + f1 + f2, f3, p, v);
  }

  /**
   * Reading back the fields Display writes gives the same map, for a map with no other fields
   * whose structured values their parsers accept as written.
   */
  lemma TryFromStandardFields(m: ReferenceSequence, p: MapParsers<StandardTag>, v: ValueParsers)
    requires ParsesStandardTags(p) && ValuesReparse(m, v) && m.otherFields == []
    ensures TryFromFields(StandardFields(m), p, v) == Ok(m)
  {
    var ln: Fields := [("LN", NatToString(m.length))];
    assert ln[..0] == [];
    ParseLengthText(m.length);
    assert StepAll(NoneSet, ln, p, v) == Ok(After(m, 0));
    StepFour(m, 0, p, v);
    StepFour(m, 4, p, v);
    assert HeadFields(m) == OptionalAt(m, 0) + OptionalAt(m, 1) + OptionalAt(m, 2) + OptionalAt(m, 3);
    assert TailFields(m) == OptionalAt(m, 4) + OptionalAt(m, 5) + OptionalAt(m, 6) + OptionalAt(m, 7);
    StepAllAppend(NoneSet, ln, HeadFields(m) + TailFields(m), p, v);
    StepAllAppend(After(m, 0), HeadFields(m), TailFields(m), p, v);
  }

  lemma LengthText13()
    ensures NatToString(13) == "13"
  {
    assert DigitChar(1) == '1' && DigitChar(3) == '3';
  }

  /** A map of length 13 with only an MD5 checksum is written as its LN field, then its M5 field. */
  lemma DisplayLengthAndChecksum(x: string, otherFieldsText: OtherFields -> string)
    requires otherFieldsText([]) == ""
    ensures DisplayText(ReferenceSequence(13, None, None, None, None, Some(x), None, None, None, []), otherFieldsText)
      == "\tLN:13\tM5:" + x
  {
    var m := ReferenceSequence(13, None, None, None, None, Some(x), None, None, None, []);
    LengthText13();
    assert HeadText(m) == "";
    assert TailText(m) == "\tM5:" + x;
  }

  /** The test at reference_sequence.rs:382-398: length 13 and an MD5 checksum. */
  lemma DisplayExample(otherFieldsText: OtherFields -> string)
    requires otherFieldsText([]) == ""
    ensures DisplayText(ReferenceSequence(13, None, None, None, None, Some("d7eba311421bbc9d3ada44709dd61534"),
      None, None, None, []), otherFieldsText) == "\tLN:13\tM5:" + "d7eba311421bbc9d3ada44709dd61534"
  {
    DisplayLengthAndChecksum("d7eba311421bbc9d3ada44709dd61534", otherFieldsText);
  }

  /** A `Map<ReferenceSequence>` whose length and MD5 checksum are changed in place. */
  class ReferenceSequenceMap {
    var length: Length
    var alternativeLocus: Option<string>
    var alternativeNames: Option<string>
    var assemblyId: Option<string>
    var description: Option<string>
    var md5Checksum: Option<string>
    var species: Option<string>
    var moleculeTopology: Option<string>
    var uri: Option<string>
    var otherFields: OtherFields

    function Value(): ReferenceSequence
      reads this
    {
      ReferenceSequence(length, alternativeLocus, alternativeNames, assemblyId, description,
        md5Checksum, species, moleculeTopology, uri, otherFields)
    }

    /** `Map::<ReferenceSequence>::new`: the given length, every optional field unset, no other fields. */
    constructor New(length: Length)
      ensures Value() == ReferenceSequence(length, None, None, None, None, None, None, None, None, [])
    {
      this.length := length;
      alternativeLocus, alternativeNames, assemblyId, description := None, None, None, None;
      md5Checksum, species, moleculeTopology, uri := None, None, None, None;
      otherFields := [];
    }

    /** A write through `length_mut`: only the length changes. */
    method SetLength(length: Length)
      modifies this
      ensures Value() == old(Value()).(length := length)
    {
      this.length := length;
    }

    /** A write through `md5_checksum_mut`: only the checksum changes. */
    method SetMd5Checksum(checksum: Option<string>)
      modifies this
      ensures Value() == old(Value()).(md5Checksum := checksum)
    {
      md5Checksum := checksum;
    }
  }
}
