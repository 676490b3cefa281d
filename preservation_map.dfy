/**
 * The builder of a CRAM compression header's preservation map: three flags, which default to
 * true as section 8.4 of the CRAM format specification (version 3.0) prescribes for absent
 * values, and the tag-IDs dictionary collected from the records. The substitution matrix the
 * builder also collects is not part of this model.
 */
module PreservationMapBuilder {
  import TagIdsDictionary

  /** The writer options the builder reads. */
  datatype Options = Options(preserveReadNames: bool, encodeAlignmentStartPositionsAsDeltas: bool)

  datatype PreservationMap = PreservationMap(
    readNamesIncluded: bool,
    apDataSeriesDelta: bool,
    referenceRequired: bool,
    tagIdsDictionary: seq<seq<TagIdsDictionary.Key>>)

  class Builder {
    var readNamesIncluded: bool
    var apDataSeriesDelta: bool
    var referenceRequired: bool
    const tagIdsDictionaryBuilder: TagIdsDictionary.Builder

    ghost predicate Valid()
      reads this, tagIdsDictionaryBuilder
    {
      tagIdsDictionaryBuilder.Valid()
    }

    /** `Builder::default`: every flag true and no records seen. */
    constructor Default()
      ensures Valid() && fresh(tagIdsDictionaryBuilder)
      ensures readNamesIncluded && apDataSeriesDelta && referenceRequired
      ensures tagIdsDictionaryBuilder.history == []
    {
      readNamesIncluded := true;
      apDataSeriesDelta := true;
      referenceRequired := true;
      tagIdsDictionaryBuilder := new TagIdsDictionary.Builder();
    }

    /** `apply_options`: copies the two options; `reference_required` is left as it was. */
    method ApplyOptions(options: Options)
      modifies this
      ensures readNamesIncluded == options.preserveReadNames
      ensures apDataSeriesDelta == options.encodeAlignmentStartPositionsAsDeltas
      ensures referenceRequired == old(referenceRequired)
    {
      readNamesIncluded := options.preserveReadNames;
      apDataSeriesDelta := options.encodeAlignmentStartPositionsAsDeltas;
    }

    /** `update`: hands the record's data fields to the tag-IDs dictionary builder; no flag changes. */
    method Update(fields: seq<TagIdsDictionary.Field>)
      requires Valid()
      modifies tagIdsDictionaryBuilder
      ensures Valid()
      ensures tagIdsDictionaryBuilder.history == old(tagIdsDictionaryBuilder.history) + [TagIdsDictionary.KeysOf(fields)]
      ensures unchanged(this)
    {
      tagIdsDictionaryBuilder.Update(fields);
    }

    /** `build`: the three flags unchanged, and the dictionary of the records seen, in first-appearance order. */
    method Build() returns (m: PreservationMap)
      requires Valid()
      ensures m.readNamesIncluded == readNamesIncluded && m.apDataSeriesDelta == apDataSeriesDelta
      ensures m.referenceRequired == referenceRequired
      ensures m.tagIdsDictionary == TagIdsDictionary.FirstAppearances(tagIdsDictionaryBuilder.history)
    {
      var dictionary := tagIdsDictionaryBuilder.Build();
      m := PreservationMap(readNamesIncluded, apDataSeriesDelta, referenceRequired, dictionary);
    }
  }
}
