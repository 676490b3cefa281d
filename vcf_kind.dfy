/** The kind of a VCF meta-information line: the text between "##" and "=". */
module VcfKind {
  import opened Wrappers

  datatype Kind = FileFormat | Info | Filter | Format | AlternativeAllele | Assembly | Contig
                | Other(name: string)

  /** The parse error carries the rejected input. */
  datatype ParseError = ParseError(input: string)

  /** `as_ref`, which is also what `Display` writes. */
  function AsRef(k: Kind): string
  {
    match k
    case FileFormat => "fileformat"
    case Info => "INFO"
    case Filter => "FILTER"
    case Format => "FORMAT"
    case AlternativeAllele => "ALT"
    case Assembly => "assembly"
    case Contig => "contig"
    case Other(s) => s
  }

  /** The seven names that have their own kind; the comparison is exact and case-sensitive. */
  const NamedKinds: set<string> := {"fileformat", "INFO", "FILTER", "FORMAT", "ALT", "assembly", "contig"}

  /**
   * `from_str`: only the empty string is rejected; every non-empty string names a kind,
   * and the kind displays as the string it was parsed from.
   */
  function Parse(s: string): (r: Result<Kind, ParseError>)
    ensures r.Err? <==> s == []
    ensures r.Err? ==> r.error.input == s
    ensures r.Ok? ==> AsRef(r.value) == s
    ensures r.Ok? ==> (r.value.Other? <==> s !in NamedKinds)
  {
    match s
    case "" => Err(ParseError(s))
    case "fileformat" => Ok(FileFormat)
    case "INFO" => Ok(Info)
    case "FILTER" => Ok(Filter)
    case "FORMAT" => Ok(Format)
    case "ALT" => Ok(AlternativeAllele)
    case "assembly" => Ok(Assembly)
    case "contig" => Ok(Contig)
    case _ => Ok(Other(s))
  }

  /** Parsing the display of a kind gives it back, for the named kinds and for any other non-empty name. */
  lemma ParseAsRef(k: Kind)
    requires k.Other? ==> k.name != [] && k.name !in NamedKinds
    ensures Parse(AsRef(k)) == Ok(k)
  {
    match k
    case Other(s) =>
    case _ =>
  }

  /** The unit-test inputs at kind.rs:91-102, among them a case variant that is not a named kind. */
  lemma ParseExamples()
    ensures Parse("fileDate") == Ok(Other("fileDate"))
    ensures Parse("info") == Ok(Other("info"))
    ensures Parse("").Err?
  {
  }
}
