/**
 * What the SAM header map values (@SQ, @PG, ...) share: the raw fields of a header line, the
 * tags they are keyed by, and the errors of building a map from fields. The tag parser and the
 * insertion of non-standard fields are not part of this model; they are passed in.
 */
module SamHeaderMap {
  import opened Wrappers

  /** The fields of a header line as read: (tag, value) pairs in line order. */
  type Fields = seq<(string, string)>

  /** Fields with a tag the map does not know, in the order they were inserted. */
  type OtherFields = seq<(string, string)>

  /** A parsed tag: one of the map's standard tags, or another (valid) tag. */
  datatype Tag<S> = Standard(standard: S) | Other(other: string)

  /** `TryFromFieldsError`; `OtherFieldError` is whatever inserting a non-standard field reports. */
  datatype TryFromFieldsError =
    | InvalidTag
    | MissingField(tag: string)
    | InvalidValue(tag: string)
    | OtherFieldError(code: nat)

  /** The collaborators of `try_from`: the tag parser (None when the tag is invalid) and `insert_other_field`. */
  datatype MapParsers<S> = MapParsers(
    parseTag: string -> Option<Tag<S>>,
    insertOtherField: (OtherFields, string, string) -> Result<OtherFields, TryFromFieldsError>)

  /** The value of the last field whose tag parses to `tag`, if any. */
  function LastValue<S(==)>(fields: Fields, parseTag: string -> Option<Tag<S>>, tag: Tag<S>): Option<string>
  {
    if fields == [] then None
    else if parseTag(fields[|fields| - 1].0) == Some(tag) then Some(fields[|fields| - 1].1)
    else LastValue(fields[..|fields| - 1], parseTag, tag)
  }

  /** How a map writes one field: a tab, the tag, ':', the value. */
  function FieldText(tag: string, value: string): string
  {
    "\t" + tag + ":" + value
  }

  /** An optional field: written as `FieldText` when present, nothing when absent. */
  function OptionalText(tag: string, value: Option<string>): string
  {
    if value.Some? then FieldText(tag, value.value) else ""
  }

  /** The text of a list of fields, each written as `FieldText`, in order. */
  function FieldsText(fields: Fields): string
  {
    if fields == [] then "" else FieldsText(fields[..|fields| - 1]) + FieldText(fields[|fields| - 1].0, fields[|fields| - 1].1)
  }

  /** The fields an optional value contributes: one pair when present, none when absent. */
  function OptionalField(tag: string, value: Option<string>): Fields
  {
    if value.Some? then [(tag, value.value)] else []
  }

  lemma {:induction false} FieldsTextAppend(a: Fields, b: Fields)
    ensures FieldsText(a + b) == FieldsText(a) + FieldsText(b)
    decreases |b|
  {
    if b == [] {
      assert a + b == a;
    } else {
      var n := |b| - 1;
      var ab := a + b;
      var last := FieldText(b[n].0, b[n].1);
      assert ab[..|ab| - 1] == a + b[..n];
      assert ab[|ab| - 1] == b[n];
      FieldsTextAppend(a, b[..n]);
      calc {
        FieldsText(ab);
        FieldsText(a + b[..n]) + last;
        (FieldsText(a) + FieldsText(b[..n])) + last;
        FieldsText(a) + (FieldsText(b[..n]) + last);
        FieldsText(a) + FieldsText(b);
      }
    }
  }

  /** A list that starts with one field writes that field first. */
  lemma FieldsTextCons(tag: string, value: string, rest: Fields)
    ensures FieldsText([(tag, value)] + rest) == FieldText(tag, value) + FieldsText(rest)
  {
    var one: Fields := [(tag, value)];
    assert one[..0] == [];
    FieldsTextAppend(one, rest);
  }

  lemma OptionalFieldText(tag: string, value: Option<string>)
    ensures FieldsText(OptionalField(tag, value)) == OptionalText(tag, value)
  {
    if value.Some? {
      assert OptionalField(tag, value)[..0] == [];
    }
  }
}
