/** The value of a SAM @PG header record: a program that created, viewed or changed the file. */
module SamProgram {
  import opened Wrappers
  import opened SamHeaderMap

  datatype StandardTag = Id | Name | CommandLine | PreviousId | Description | Version

  /** `Map<Program>`: the optional standard fields and the other fields. The ID is not kept here. */
  datatype Program = Program(
    name: Option<string>,
    commandLine: Option<string>,
    previousId: Option<string>,
    description: Option<string>,
    version: Option<string>,
    otherFields: OtherFields)

  /** `Map::<Program>::default()`: no field set. */
  const Default: Program := Program(None, None, None, None, None, [])

  /** One iteration of the `try_from` loop: the field's tag decides which value it sets. */
  function Step(m: Program, field: (string, string), p: MapParsers<StandardTag>): Result<Program, TryFromFieldsError>
  {
    match p.parseTag(field.0)
    case None => Err(InvalidTag)
    case Some(tag) =>
      match tag
      case Standard(Id) => Ok(m)
      case Standard(Name) => Ok(m.(name := Some(field.1)))
      case Standard(CommandLine) => Ok(m.(commandLine := Some(field.1)))
      case Standard(PreviousId) => Ok(m.(previousId := Some(field.1)))
      case Standard(Description) => Ok(m.(description := Some(field.1)))
      case Standard(Version) => Ok(m.(version := Some(field.1)))
      case Other(t) =>
        match p.insertOtherField(m.otherFields, t, field.1)
        case Err(e) => Err(e)
        case Ok(others) => Ok(m.(otherFields := others))
  }

  /** The fields applied in order to `m`, stopping at the first error. */
  function StepAll(m: Program, fields: Fields, p: MapParsers<StandardTag>): Result<Program, TryFromFieldsError>
  {
    if fields == [] then Ok(m)
    else
      match StepAll(m, fields[..|fields| - 1], p)
      case Err(e) => Err(e)
      case Ok(prev) => Step(prev, fields[|fields| - 1], p)
  }

  /** `TryFrom<Fields>`: every field applied to the default program. */
  function TryFromFields(fields: Fields, p: MapParsers<StandardTag>): Result<Program, TryFromFieldsError>
  {
    StepAll(Default, fields, p)
  }

  lemma {:induction false} StepAllAppend(m: Program, a: Fields, b: Fields, p: MapParsers<StandardTag>)
    ensures StepAll(m, a + b, p) ==
      match StepAll(m, a, p)
      case Err(e) => Err(e)
      case Ok(prev) => StepAll(prev, b, p)
    decreases |b|
  {
    if b == [] {
      assert a + b == a;
    } else {
      var n := |b| - 1;
      assert (a + b)[..|a + b| - 1] == a + b[..n];
      StepAllAppend(m, a, b[..n], p);
    }
  }

  /** Once a prefix of the fields fails, the whole conversion fails with the same error. */
  lemma {:induction false} StepAllErrSticky(m: Program, fields: Fields, n: nat, p: MapParsers<StandardTag>)
    requires n <= |fields| && StepAll(m, fields[..n], p).Err?
    ensures StepAll(m, fields, p) == StepAll(m, fields[..n], p)
  {
    StepAllAppend(m, fields[..n], fields[n..], p);
    assert fields[..n] + fields[n..] == fields;
  }

  method TryFrom(fields: Fields, p: MapParsers<StandardTag>) returns (r: Result<Program, TryFromFieldsError>)
    ensures r == TryFromFields(fields, p)
  {
    var name, commandLine, previousId, description, version := None, None, None, None, None;
    var otherFields: OtherFields := [];
    for i := 0 to |fields|
      invariant TryFromFields(fields[..i], p)
        == Ok(Program(name, commandLine, previousId, description, version, otherFields))
    {
      var key, value := fields[i].0, fields[i].1;
      assert fields[..i + 1][..i] == fields[..i];
      var tag := p.parseTag(key);
      if tag.None? {
        StepAllErrSticky(Default, fields, i + 1, p);
        return Err(InvalidTag);
      }
      match tag.value {
        case Standard(Id) =>
        case Standard(Name) => name := Some(value);
        case Standard(CommandLine) => commandLine := Some(value);
        case Standard(PreviousId) => previousId := Some(value);
        case Standard(Description) => description := Some(value);
        case Standard(Version) => version := Some(value);
        case Other(t) =>
          var inserted := p.insertOtherField(otherFields, t, value);
          if inserted.Err? {
            StepAllErrSticky(Default, fields, i + 1, p);
            return Err(inserted.error);
          }
          otherFields := inserted.value;
      }
    }
    assert fields[..|fields|] == fields;
    return Ok(Program(name, commandLine, previousId, description, version, otherFields));
  }

  /**
   * A conversion that succeeds holds, for each standard field, the value of the last field with
   * that tag (a repeated tag overwrites the earlier one); the ID field is read but not kept.
   */
  lemma {:induction false} TryFromLastWins(fields: Fields, p: MapParsers<StandardTag>)
    requires TryFromFields(fields, p).Ok?
    ensures var m := TryFromFields(fields, p).value;
      && m.name == LastValue(fields, p.parseTag, Standard(Name))
      && m.commandLine == LastValue(fields, p.parseTag, Standard(CommandLine))
      && m.previousId == LastValue(fields, p.parseTag, Standard(PreviousId))
      && m.description == LastValue(fields, p.parseTag, Standard(Description))
      && m.version == LastValue(fields, p.parseTag, Standard(Version))
  {
    if fields != [] {
      TryFromLastWins(fields[..|fields| - 1], p);
    }
  }

  /** Fields whose tags are all standard never fail: no standard field is required. */
  lemma {:induction false} TryFromStandardOnly(fields: Fields, p: MapParsers<StandardTag>)
    requires forall i :: 0 <= i < |fields| ==> p.parseTag(fields[i].0).Some? && p.parseTag(fields[i].0).value.Standard?
    ensures TryFromFields(fields, p).Ok? && TryFromFields(fields, p).value.otherFields == []
  {
    if fields != [] {
      TryFromStandardOnly(fields[..|fields| - 1], p);
    }
  }

  /** The first field whose tag does not parse, after standard ones only, makes the conversion InvalidTag. */
  lemma TryFromInvalidTag(fields: Fields, i: nat, p: MapParsers<StandardTag>)
    requires i < |fields| && p.parseTag(fields[i].0).None?
    requires forall j :: 0 <= j < i ==> p.parseTag(fields[j].0).Some? && p.parseTag(fields[j].0).value.Standard?
    ensures TryFromFields(fields, p) == Err(InvalidTag)
  {
    TryFromStandardOnly(fields[..i], p);
    assert fields[..i + 1][..i] == fields[..i];
    StepAllErrSticky(Default, fields, i + 1, p);
  }

  /** The present standard fields in the order Display writes them: PN, CL, PP, DS, VN. */
  function StandardFields(m: Program): Fields
  {
    OptionalField("PN", m.name) + OptionalField("CL", m.commandLine) + OptionalField("PP", m.previousId)
      + OptionalField("DS", m.description) + OptionalField("VN", m.version)
  }

  /** `Display`: each present standard field as "\tTAG:value", then the other fields. */
  function DisplayText(m: Program, otherFieldsText: OtherFields -> string): string
  {
    OptionalText("PN", m.name) + OptionalText("CL", m.commandLine) + OptionalText("PP", m.previousId)
      + OptionalText("DS", m.description) + OptionalText("VN", m.version) + otherFieldsText(m.otherFields)
  }

  /** Display writes exactly the present standard fields, in order, each as "\tTAG:value". */
  lemma DisplayWritesStandardFields(m: Program, otherFieldsText: OtherFields -> string)
    ensures DisplayText(m, otherFieldsText) == FieldsText(StandardFields(m)) + otherFieldsText(m.otherFields)
  {
    var pn, cl, pp := OptionalField("PN", m.name), OptionalField("CL", m.commandLine), OptionalField("PP", m.previousId);
    var ds, vn := OptionalField("DS", m.description), OptionalField("VN", m.version);
    FieldsTextAppend(pn, cl);
    FieldsTextAppend(pn + cl, pp);
    FieldsTextAppend(pn + cl + pp, ds);
    FieldsTextAppend(pn + cl + pp + ds, vn);
    OptionalFieldText("PN", m.name);
    OptionalFieldText("CL", m.commandLine);
    OptionalFieldText("PP", m.previousId);
    OptionalFieldText("DS", m.description);
    OptionalFieldText("VN", m.version);
  }

  /** The tag parser knows the standard tags by their two-letter names. */
  predicate ParsesStandardTags(p: MapParsers<StandardTag>)
  {
    && p.parseTag("ID") == Some(Standard(Id)) && p.parseTag("PN") == Some(Standard(Name))
    && p.parseTag("CL") == Some(Standard(CommandLine)) && p.parseTag("PP") == Some(Standard(PreviousId))
    && p.parseTag("DS") == Some(Standard(Description)) && p.parseTag("VN") == Some(Standard(Version))
  }

  lemma StepOptional(m: Program, tag: string, value: Option<string>, p: MapParsers<StandardTag>)
    ensures StepAll(m, OptionalField(tag, value), p)
      == if value.Some? then Step(m, (tag, value.value), p) else Ok(m)
  {
    if value.Some? {
      assert OptionalField(tag, value)[..0] == [];
    }
  }

  /** Reading back the fields Display writes gives the same program (for a program with no other fields). */
  lemma TryFromStandardFields(m: Program, p: MapParsers<StandardTag>)
    requires ParsesStandardTags(p) && m.otherFields == []
    ensures TryFromFields(StandardFields(m), p) == Ok(m)
  {
    var pn, cl, pp := OptionalField("PN", m.name), OptionalField("CL", m.commandLine), OptionalField("PP", m.previousId);
    var ds, vn := OptionalField("DS", m.description), OptionalField("VN", m.version);
    var m1 := Default.(name := m.name);
    var m2 := m1.(commandLine := m.commandLine);
    var m3 := m2.(previousId := m.previousId);
    var m4 := m3.(description := m.description);
    StepOptional(Default, "PN", m.name, p);
    StepOptional(m1, "CL", m.commandLine, p);
    StepOptional(m2, "PP", m.previousId, p);
    StepOptional(m3, "DS", m.description, p);
    StepOptional(m4, "VN", m.version, p);
    StepAllAppend(Default, pn, cl, p);
    StepAllAppend(Default, pn + cl, pp, p);
    StepAllAppend(Default, pn + cl + pp, ds, p);
    StepAllAppend(Default, pn + cl + pp + ds, vn, p);
  }

  /** The test at program.rs:172-181: name "noodles-sam" and version "0.23.0". */
  lemma DisplayExample(otherFieldsText: OtherFields -> string)
    requires otherFieldsText([]) == ""
    ensures DisplayText(Program(Some("noodles-sam"), None, None, None, Some("0.23.0"), []), otherFieldsText)
      == "\tPN:noodles-sam\tVN:0.23.0"
  {
  }
}
