/** The Type field of a VCF FORMAT header record. */
module VcfFormatType {
  import opened Wrappers

  datatype Type = Integer | Float | Character | String

  /** The parse error carries the rejected input. */
  datatype ParseError = ParseError(input: string)

  /** `as_ref`, which is also what `Display` writes. */
  function AsRef(t: Type): string
  {
    match t
    case Integer => "Integer"
    case Float => "Float"
    case Character => "Character"
    case String => "String"
  }

  /** `from_str`: exactly the four names, case-sensitively; anything else is an error holding the input. */
  function Parse(s: string): (r: Result<Type, ParseError>)
    ensures r.Ok? ==> AsRef(r.value) == s
    ensures r.Err? ==> r.error == ParseError(s)
    ensures r.Ok? <==> s in {"Integer", "Float", "Character", "String"}
  {
    match s
    case "Integer" => Ok(Integer)
    case "Float" => Ok(Float)
    case "Character" => Ok(Character)
    case "String" => Ok(String)
    case _ => Err(ParseError(s))
  }

  /** Every type survives a display-then-parse round trip. */
  lemma ParseAsRef(t: Type)
    ensures Parse(AsRef(t)) == Ok(t)
  {
    match t
    case Integer =>
    case Float =>
    case Character =>
    case String =>
  }

  /** The rejected inputs of the unit test at ty.rs:84-85, and a lower-case variant. */
  lemma ParseExamples()
    ensures Parse("") == Err(ParseError(""))
    ensures Parse("Noodles") == Err(ParseError("Noodles"))
    ensures Parse("integer").Err?
  {
  }
}
