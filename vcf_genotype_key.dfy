/** The keys of the FORMAT column of a VCF data line (section 1.6.2 of the VCF specification). */
module VcfGenotypeKey {
  import opened Wrappers

  /** The 27 reserved genotype keys. */
  datatype Standard =
    | ReadDepths | ForwardStrandReadDepths | ReverseStrandReadDepths | ReadDepth
    | ExpectedAlternateAlleleCounts | Filter | GenotypeLikelihoods
    | GenotypePosteriorProbabilities | ConditionalGenotypeQuality | Genotype
    | HaplotypeQuality | MappingQuality | RoundedGenotypeLikelihoods
    | RoundedGenotypePosteriorProbabilities | PhasingQuality | PhaseSet | PhaseSetList
    | PhaseSetListOrdinals | PhaseSetListQualities | GenotypeCopyNumber
    | CopyNumberConfidenceInterval | GenotypeCopyNumberQuality
    | GenotypeCopyNumberLikelihoods | GenotypeCopyNumberPosteriorProbabilities
    | NovelVariantQualityScore | HaplotypeId | AncestralHaplotypeId

  /** A key is either reserved or a non-reserved name. */
  datatype Key = Standard(standard: Standard) | Other(name: string)

  datatype ParseError = Empty | Invalid

  function StandardAsRef(k: Standard): string
  {
    match k
    case ReadDepths => "AD"
    case ForwardStrandReadDepths => "ADF"
    case ReverseStrandReadDepths => "ADR"
    case ReadDepth => "DP"
    case ExpectedAlternateAlleleCounts => "EC"
    case Filter => "FT"
    case GenotypeLikelihoods => "GL"
    case GenotypePosteriorProbabilities => "GP"
    case ConditionalGenotypeQuality => "GQ"
    case Genotype => "GT"
    case HaplotypeQuality => "HQ"
    case MappingQuality => "MQ"
    case RoundedGenotypeLikelihoods => "PL"
    case RoundedGenotypePosteriorProbabilities => "PP"
    case PhasingQuality => "PQ"
    case PhaseSet => "PS"
    case PhaseSetList => "PSL"
    case PhaseSetListOrdinals => "PSO"
    case PhaseSetListQualities => "PSQ"
    case GenotypeCopyNumber => "CN"
    case CopyNumberConfidenceInterval => "CICN"
    case GenotypeCopyNumberQuality => "CNQ"
    case GenotypeCopyNumberLikelihoods => "CNL"
    case GenotypeCopyNumberPosteriorProbabilities => "CNP"
    case NovelVariantQualityScore => "NQ"
    case HaplotypeId => "HAP"
    case AncestralHaplotypeId => "AHAP"
  }

  /** The reserved names, listed independently of the parser. */
  const ReservedNames: set<string> :=
    {"AD", "ADF", "ADR", "DP", "EC", "FT", "GL", "GP", "GQ", "GT", "HQ", "MQ", "PL", "PP",
     "PQ", "PS", "PSL", "PSO", "PSQ", "CN", "CICN", "CNQ", "CNL", "CNP", "NQ", "HAP", "AHAP"}

  /** `Standard::from_str`: the reserved key a reserved name stands for. */
  function ParseStandard(s: string): Result<Standard, ParseError>
  {
    match s
    case "AD" => Ok(ReadDepths)
    case "ADF" => Ok(ForwardStrandReadDepths)
    case "ADR" => Ok(ReverseStrandReadDepths)
    case "DP" => Ok(ReadDepth)
    case "EC" => Ok(ExpectedAlternateAlleleCounts)
    case "FT" => Ok(Filter)
    case "GL" => Ok(GenotypeLikelihoods)
    case "GP" => Ok(GenotypePosteriorProbabilities)
    case "GQ" => Ok(ConditionalGenotypeQuality)
    case "GT" => Ok(Genotype)
    case "HQ" => Ok(HaplotypeQuality)
    case "MQ" => Ok(MappingQuality)
    case "PL" => Ok(RoundedGenotypeLikelihoods)
    case "PP" => Ok(RoundedGenotypePosteriorProbabilities)
    case "PQ" => Ok(PhasingQuality)
    case "PS" => Ok(PhaseSet)
    case "PSL" => Ok(PhaseSetList)
    case "PSO" => Ok(PhaseSetListOrdinals)
    case "PSQ" => Ok(PhaseSetListQualities)
    case "CN" => Ok(GenotypeCopyNumber)
    case "CICN" => Ok(CopyNumberConfidenceInterval)
    case "CNQ" => Ok(GenotypeCopyNumberQuality)
    case "CNL" => Ok(GenotypeCopyNumberLikelihoods)
    case "CNP" => Ok(GenotypeCopyNumberPosteriorProbabilities)
    case "NQ" => Ok(NovelVariantQualityScore)
    case "HAP" => Ok(HaplotypeId)
    case "AHAP" => Ok(AncestralHaplotypeId)
    case _ => Err(Invalid)
  }

  /** Every reserved key's name is in the list of reserved names. */
  lemma StandardNamesReserved(k: Standard)
    ensures StandardAsRef(k) in ReservedNames
  {
  }

  /** A parsed reserved key displays as the name it was parsed from. */
  lemma ParseStandardName(s: string, k: Standard)
    requires ParseStandard(s) == Ok(k)
    ensures StandardAsRef(k) == s
  {
    match k
    case ReadDepths =>
    case ForwardStrandReadDepths =>
    case ReverseStrandReadDepths =>
    case ReadDepth =>
    case ExpectedAlternateAlleleCounts =>
    case Filter =>
    case GenotypeLikelihoods =>
    case GenotypePosteriorProbabilities =>
    case ConditionalGenotypeQuality =>
    case Genotype =>
    case HaplotypeQuality =>
    case MappingQuality =>
    case RoundedGenotypeLikelihoods =>
    case RoundedGenotypePosteriorProbabilities =>
    case PhasingQuality =>
    case PhaseSet =>
    case PhaseSetList =>
    case PhaseSetListOrdinals =>
    case PhaseSetListQualities =>
    case GenotypeCopyNumber =>
    case CopyNumberConfidenceInterval =>
    case GenotypeCopyNumberQuality =>
    case GenotypeCopyNumberLikelihoods =>
    case GenotypeCopyNumberPosteriorProbabilities =>
    case NovelVariantQualityScore =>
    case HaplotypeId =>
    case AncestralHaplotypeId =>
  }

  /** `Standard::from_str` succeeds exactly on the reserved names. */
  lemma ParseStandardReserved(s: string)
    ensures ParseStandard(s).Ok? <==> s in ReservedNames
    ensures ParseStandard(s).Ok? ==> StandardAsRef(ParseStandard(s).value) == s
  {
    if ParseStandard(s).Ok? {
      ParseStandardName(s, ParseStandard(s).value);
      StandardNamesReserved(ParseStandard(s).value);
    }
  }

  /** Every reserved key survives a display-then-parse round trip. */
  lemma ParseStandardAsRef(k: Standard)
    ensures ParseStandard(StandardAsRef(k)) == Ok(k)
  {
    match k
    case ReadDepths =>
    case ForwardStrandReadDepths =>
    case ReverseStrandReadDepths =>
    case ReadDepth =>
    case ExpectedAlternateAlleleCounts =>
    case Filter =>
    case GenotypeLikelihoods =>
    case GenotypePosteriorProbabilities =>
    case ConditionalGenotypeQuality =>
    case Genotype =>
    case HaplotypeQuality =>
    case MappingQuality =>
    case RoundedGenotypeLikelihoods =>
    case RoundedGenotypePosteriorProbabilities =>
    case PhasingQuality =>
    case PhaseSet =>
    case PhaseSetList =>
    case PhaseSetListOrdinals =>
    case PhaseSetListQualities =>
    case GenotypeCopyNumber =>
    case CopyNumberConfidenceInterval =>
    case GenotypeCopyNumberQuality =>
    case GenotypeCopyNumberLikelihoods =>
    case GenotypeCopyNumberPosteriorProbabilities =>
    case NovelVariantQualityScore =>
    case HaplotypeId =>
    case AncestralHaplotypeId =>
  }

  predicate IsAsciiLetter(c: char) { 'A' <= c <= 'Z' || 'a' <= c <= 'z' }

  /** `is_valid_name_char`: an ASCII letter or digit, '_' or '.'. */
  predicate IsValidNameChar(c: char) { '0' <= c <= '9' || IsAsciiLetter(c) || c == '_' || c == '.' }

  /**
   * `is_valid_name`: the first character, if any, is an ASCII letter or '_', and every later
   * one is a name character. The empty name passes.
   */
  predicate IsValidName(s: string)
  {
    (s != [] ==> IsAsciiLetter(s[0]) || s[0] == '_')
    && forall i :: 1 <= i < |s| ==> IsValidNameChar(s[i])
  }

  /** `Other::from_str`. */
  function ParseOther(s: string): (r: Result<string, ParseError>)
    ensures r.Ok? <==> IsValidName(s)
    ensures r.Ok? ==> r.value == s
    ensures r.Err? ==> r.error == Invalid
  {
    if IsValidName(s) then Ok(s) else Err(Invalid)
  }

  /** `Key::as_ref`, which is also what `Display` writes. */
  function AsRef(k: Key): string
  {
    match k
    case Standard(std) => StandardAsRef(std)
    case Other(name) => name
  }

  /**
   * `Key::from_str`: empty input is Empty; a reserved name is always the Standard key; any other
   * name must be valid and becomes Other. A parsed key displays as its input.
   */
  function ParseKey(s: string): (r: Result<Key, ParseError>)
    ensures r == Err(Empty) <==> s == []
    ensures r.Ok? ==> AsRef(r.value) == s
    ensures s in ReservedNames ==> r.Ok? && r.value.Standard?
    ensures r.Ok? && r.value.Other? <==> s != [] && s !in ReservedNames && IsValidName(s)
  {
    if s == [] then Err(Empty)
    else
      ParseStandardReserved(s);
      match ParseStandard(s)
      case Ok(std) => Ok(Standard(std))
      case Err(_) =>
        match ParseOther(s)
        case Ok(name) => Ok(Other(name))
        case Err(e) => Err(e)
  }

  /** The keys a parse can produce: Standard ones, and Other ones holding a valid non-reserved name. */
  predicate IsParsedKey(k: Key)
  {
    k.Other? ==> k.name != [] && k.name !in ReservedNames && IsValidName(k.name)
  }

  /** Display then parse is the identity on every key a parse can produce. */
  lemma ParseKeyAsRef(k: Key)
    requires IsParsedKey(k)
    ensures ParseKey(AsRef(k)) == Ok(k)
  {
    if k.Standard? {
      ParseStandardAsRef(k.standard);
    }
  }

  /** The unit-test inputs at key.rs:426-431. */
  lemma ParseKeyExamples()
    ensures ParseKey("NDLS") == Ok(Other("NDLS"))
    ensures ParseKey("") == Err(Empty)
    ensures ParseKey("8D") == Err(Invalid) && ParseKey(".N") == Err(Invalid) && ParseKey("A!") == Err(Invalid)
  {
    assert !IsValidNameChar("A!"[1]);
  }
}
