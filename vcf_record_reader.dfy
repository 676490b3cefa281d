/**
 * Reading one VCF data line into a record: the line is cut at tabs, field by field, and each
 * field is written into the record in column order. The per-column parsers other than the
 * position are not part of this model; they are passed in as `Parsers`.
 */
module VcfRecordReader {
  import opened Wrappers
  import VcfPosition

  const Missing: string := "."

  /** An error of a per-column parser that is not part of this model. */
  datatype ForeignError = ForeignError(code: nat)

  datatype ParseError =
    | InvalidPosition(pe: VcfPosition.ParseError)
    | InvalidIds(ie: ForeignError)
    | InvalidQualityScore(qe: ForeignError)

  /** The `io::Error` the reader returns: its own parse errors and the sub-parsers' errors. */
  datatype IoError =
    | InvalidData(e: ParseError)
    | InvalidAlternateBases(ae: ForeignError)
    | SubParser(se: ForeignError)

  /** The column parsers; the INFO and genotype parsers also see the header, bound in here. */
  datatype Parsers = Parsers(
    chromosome: string -> Result<string, ForeignError>,
    ids: string -> Result<seq<string>, ForeignError>,
    referenceBases: string -> Result<string, ForeignError>,
    alternateBases: string -> Result<seq<string>, ForeignError>,
    qualityScore: string -> Result<nat, ForeignError>,
    filters: string -> Result<seq<string>, ForeignError>,
    info: string -> Result<seq<(string, string)>, ForeignError>,
    genotypes: string -> Result<seq<seq<string>>, ForeignError>)

  /** The content of a record, column by column. A quality score is kept as its f32 bits. */
  datatype RecordValue = RecordValue(
    chromosome: string,
    position: nat,
    ids: seq<string>,
    referenceBases: string,
    alternateBases: seq<string>,
    qualityScore: Option<nat>,
    filters: Option<seq<string>>,
    info: seq<(string, string)>,
    genotypes: seq<seq<string>>)

  /**
   * `next_field`: the text before the first tab and the text after it; with no tab, the whole
   * text and "".
   */
  function NextField(s: string): (string, string)
  {
    if s == [] then ("", "")
    else if s[0] == '\t' then ("", s[1..])
    else
      var (field, rest) := NextField(s[1..]);
      ([s[0]] + field, rest)
  }

  /** The field holds no tab, and the field, a tab and the rest make up the text again. */
  lemma {:induction false} NextFieldSplit(s: string)
    ensures '\t' !in NextField(s).0
    ensures '\t' in s ==> s == NextField(s).0 + "\t" + NextField(s).1
    ensures '\t' !in s ==> NextField(s) == (s, "")
  {
    if s != [] && s[0] != '\t' {
      NextFieldSplit(s[1..]);
      assert s == [s[0]] + s[1..];
      assert '\t' in s ==> '\t' in s[1..];
    }
  }

  /** The first `n` fields of a line and what is left after them. */
  function SplitFields(s: string, n: nat): (r: (seq<string>, string))
    ensures |r.0| == n
    decreases n
  {
    if n == 0 then ([], s)
    else
      var (field, rest) := NextField(s);
      var (fields, tail) := SplitFields(rest, n - 1);
      ([field] + fields, tail)
  }

  function TabCount(s: string): nat
  {
    if s == [] then 0 else (if s[0] == '\t' then 1 else 0) + TabCount(s[1..])
  }

  /** One tab joins each field to the next: the fields, tabs and remainder rebuild the line. */
  function Rejoin(fields: seq<string>, rest: string): string
  {
    if fields == [] then rest else fields[0] + "\t" + Rejoin(fields[1..], rest)
  }

  lemma {:induction false} TabCountSplit(a: string, b: string)
    requires '\t' !in a
    ensures TabCount(a + "\t" + b) == 1 + TabCount(b)
  {
    if a == [] {
      assert a + "\t" + b == ['\t'] + b;
      assert (['\t'] + b)[1..] == b;
    } else {
      assert (a + "\t" + b)[1..] == a[1..] + "\t" + b;
      TabCountSplit(a[1..], b);
    }
  }

  lemma {:induction false} TabCountPositive(s: string)
    requires '\t' in s
    ensures TabCount(s) > 0
  {
    if s[0] != '\t' {
      assert '\t' in s[1..] by {
        var i :| 0 <= i < |s| && s[i] == '\t';
        assert s[1..][i - 1] == '\t';
      }
      TabCountPositive(s[1..]);
    }
  }

  /** A line with at least `n` tabs is exactly its first `n` fields and the remainder, tab-joined. */
  lemma {:induction false} SplitFieldsRejoin(s: string, n: nat)
    requires TabCount(s) >= n
    ensures Rejoin(SplitFields(s, n).0, SplitFields(s, n).1) == s
    ensures forall i :: 0 <= i < n ==> '\t' !in SplitFields(s, n).0[i]
    decreases n
  {
    if n > 0 {
      var (field, rest) := NextField(s);
      NextFieldSplit(s);
      if '\t' !in s {
        assert TabCount(s) == 0 by { TabCountZero(s); }
      }
      TabCountSplit(field, rest);
      SplitFieldsRejoin(rest, n - 1);
      var (fields, tail) := SplitFields(rest, n - 1);
      assert SplitFields(s, n).0[1..] == fields;
    }
  }

  lemma {:induction false} TabCountZero(s: string)
    requires '\t' !in s
    ensures TabCount(s) == 0
  {
    if s != [] {
      assert '\t' !in s[1..];
      TabCountZero(s[1..]);
    }
  }

  /**
   * The reader's outcome on line `s`, starting from record content `v`: the error of the first
   * column that fails with the columns before it already written, or the new content. Each stage
   * cuts its own field off the front of the line.
   */
  function ParseRecordValue(s: string, v: RecordValue, p: Parsers): (Result<(), IoError>, RecordValue)
  {
    var (field, rest) := NextField(s);
    match p.chromosome(field)
    case Err(e) => (Err(SubParser(e)), v)
    case Ok(chrom) => ReadPosition(rest, v.(chromosome := chrom), p)
  }

  function ReadPosition(c: string, v: RecordValue, p: Parsers): (Result<(), IoError>, RecordValue)
  {
    var (field, rest) := NextField(c);
    match VcfPosition.ParsePosition(field)
    case Err(e) => (Err(InvalidData(InvalidPosition(e))), v)
    case Ok(pos) => ReadIds(rest, v.(position := pos, ids := []), p)
  }

  /**
   * A column that may hold the missing value ".": no value for ".", otherwise what the
   * column's parser makes of the field.
   */
  function Column<T>(field: string, parse: string -> Result<T, ForeignError>): (r: Result<Option<T>, ForeignError>)
    ensures r == Ok(None) <==> field == Missing
  {
    if field == Missing then Ok(None)
    else
      match parse(field)
      case Err(e) => Err(e)
      case Ok(x) => Ok(Some(x))
  }

  function ReadIds(c: string, v: RecordValue, p: Parsers): (Result<(), IoError>, RecordValue)
  {
    var (field, rest) := NextField(c);
    match Column(field, p.ids)
    case Err(e) => (Err(InvalidData(InvalidIds(e))), v)
    case Ok(ids) => ReadReferenceBases(rest, v.(ids := if ids.Some? then ids.value else v.ids), p)
  }

  function ReadReferenceBases(c: string, v: RecordValue, p: Parsers): (Result<(), IoError>, RecordValue)
  {
    var (field, rest) := NextField(c);
    match p.referenceBases(field)
    case Err(e) => (Err(SubParser(e)), v)
    case Ok(bases) => ReadAlternateBases(rest, v.(referenceBases := bases), p)
  }

  /** `parse_alternate_bases`: "." is the default, empty list of alternate bases. */
  function ReadAlternateBases(c: string, v: RecordValue, p: Parsers): (Result<(), IoError>, RecordValue)
  {
    var (field, rest) := NextField(c);
    match Column(field, p.alternateBases)
    case Err(e) => (Err(InvalidAlternateBases(e)), v)
    case Ok(alts) => ReadQualityScore(rest, v.(alternateBases := if alts.Some? then alts.value else []), p)
  }

  function ReadQualityScore(c: string, v: RecordValue, p: Parsers): (Result<(), IoError>, RecordValue)
  {
    var (field, rest) := NextField(c);
    match Column(field, p.qualityScore)
    case Err(e) => (Err(InvalidData(InvalidQualityScore(e))), v)
    case Ok(q) => ReadFilters(rest, v.(qualityScore := q), p)
  }

  function ReadFilters(c: string, v: RecordValue, p: Parsers): (Result<(), IoError>, RecordValue)
  {
    var (field, rest) := NextField(c);
    match Column(field, p.filters)
    case Err(e) => (Err(SubParser(e)), v)
    case Ok(fs) => ReadInfo(rest, v.(filters := fs, info := []), p)
  }

  function ReadInfo(c: string, v: RecordValue, p: Parsers): (Result<(), IoError>, RecordValue)
  {
    var (field, rest) := NextField(c);
    match Column(field, p.info)
    case Err(e) => (Err(SubParser(e)), v)
    case Ok(info) => ReadGenotypes(rest, v.(info := if info.Some? then info.value else v.info), p)
  }

  function ReadGenotypes(rest: string, v: RecordValue, p: Parsers): (Result<(), IoError>, RecordValue)
  {
    match p.genotypes(rest)
    case Err(e) => (Err(SubParser(e)), v)
    case Ok(genotypes) => (Ok(()), v.(genotypes := genotypes))
  }

  /**
   * On success every column comes from its own field, in the order CHROM, POS, ID, REF, ALT,
   * QUAL, FILTER, INFO, with the rest of the line going to the genotypes; "." in ID, ALT, QUAL,
   * FILTER and INFO gives the empty or absent value without calling the column parser.
   */
  lemma ParseRecordColumns(s: string, v: RecordValue, p: Parsers)
    requires ParseRecordValue(s, v, p).0.Ok?
    ensures var f, w := SplitFields(s, 8).0, ParseRecordValue(s, v, p).1;
      && p.chromosome(f[0]) == Ok(w.chromosome)
      && VcfPosition.ParsePosition(f[1]) == Ok(w.position)
      && (f[2] == Missing ==> w.ids == [])
      && (f[2] != Missing ==> p.ids(f[2]) == Ok(w.ids))
      && p.referenceBases(f[3]) == Ok(w.referenceBases)
      && (f[4] == Missing ==> w.alternateBases == [])
      && (f[4] != Missing ==> p.alternateBases(f[4]) == Ok(w.alternateBases))
      && (f[5] == Missing ==> w.qualityScore == None)
      && (f[5] != Missing ==> w.qualityScore.Some? && p.qualityScore(f[5]) == Ok(w.qualityScore.value))
      && (f[6] == Missing ==> w.filters == None)
      && (f[6] != Missing ==> w.filters.Some? && p.filters(f[6]) == Ok(w.filters.value))
      && (f[7] == Missing ==> w.info == [])
      && (f[7] != Missing ==> p.info(f[7]) == Ok(w.info))
      && p.genotypes(SplitFields(s, 8).1) == Ok(w.genotypes)
  {
  }

  /**
   * A failing column leaves the genotypes as they were; an empty position leaves everything
   * but the chromosome as it was; a failing ID column leaves the IDs empty. This holds of the
   * all-or-nothing column parsers of `Parsers`: a parser that writes part of a column before it
   * fails is not modelled.
   */
  lemma ParseRecordFailure(s: string, v: RecordValue, p: Parsers)
    requires ParseRecordValue(s, v, p).0.Err?
    ensures ParseRecordValue(s, v, p).1.genotypes == v.genotypes
    ensures ParseRecordValue(s, v, p).0 == Err(InvalidData(InvalidPosition(VcfPosition.Empty))) ==>
      ParseRecordValue(s, v, p).1 == v.(chromosome := p.chromosome(SplitFields(s, 8).0[0]).value)
    ensures ParseRecordValue(s, v, p).0.error.InvalidData? && ParseRecordValue(s, v, p).0.error.e.InvalidIds? ==>
      ParseRecordValue(s, v, p).1.ids == []
  {
  }

  /** The record a line is read into; the reader overwrites its columns one after another. */
  class Record {
    var chromosome: string
    var position: nat
    var ids: seq<string>
    var referenceBases: string
    var alternateBases: seq<string>
    var qualityScore: Option<nat>
    var filters: Option<seq<string>>
    var info: seq<(string, string)>
    var genotypes: seq<seq<string>>

    function Value(): RecordValue
      reads this
    {
      RecordValue(chromosome, position, ids, referenceBases, alternateBases, qualityScore,
                  filters, info, genotypes)
    }

    /** `Record::default()`: every column empty, position 0. */
    constructor ()
      ensures Value() == RecordValue("", 0, [], "", [], None, None, [], [])
    {
      chromosome, position, ids, referenceBases := "", 0, [], "";
      alternateBases, qualityScore, filters, info, genotypes := [], None, None, [], [];
    }

    /** `parse_record`: reads the line `s` into this record, column after column. */
    method ParseRecord(s: string, p: Parsers) returns (r: Result<(), IoError>)
      modifies this
      ensures (r, Value()) == ParseRecordValue(s, old(Value()), p)
    {
      var field, rest := NextField(s).0, NextField(s).1;
      var chrom := p.chromosome(field);
      if chrom.Err? { return Err(SubParser(chrom.error)); }
      chromosome := chrom.value;
      r := ReadPositionColumn(rest, p);
    }

    method ReadPositionColumn(c: string, p: Parsers) returns (r: Result<(), IoError>)
      modifies this
      ensures (r, Value()) == ReadPosition(c, old(Value()), p)
    {
      var field, rest := NextField(c).0, NextField(c).1;
      var pos := VcfPosition.ParsePosition(field);
      if pos.Err? { return Err(InvalidData(InvalidPosition(pos.error))); }
      position := pos.value;
      ids := [];
      r := ReadIdsColumn(rest, p);
    }

    method ReadIdsColumn(c: string, p: Parsers) returns (r: Result<(), IoError>)
      modifies this
      ensures (r, Value()) == ReadIds(c, old(Value()), p)
    {
      var field, rest := NextField(c).0, NextField(c).1;
      if field != Missing {
        var parsed := p.ids(field);
        if parsed.Err? { return Err(InvalidData(InvalidIds(parsed.error))); }
        ids := parsed.value;
      }
      r := ReadReferenceBasesColumn(rest, p);
    }

    method ReadReferenceBasesColumn(c: string, p: Parsers) returns (r: Result<(), IoError>)
      modifies this
      ensures (r, Value()) == ReadReferenceBases(c, old(Value()), p)
    {
      var field, rest := NextField(c).0, NextField(c).1;
      var bases := p.referenceBases(field);
      if bases.Err? { return Err(SubParser(bases.error)); }
      referenceBases := bases.value;
      r := ReadAlternateBasesColumn(rest, p);
    }

    method ReadAlternateBasesColumn(c: string, p: Parsers) returns (r: Result<(), IoError>)
      modifies this
      ensures (r, Value()) == ReadAlternateBases(c, old(Value()), p)
    {
      var field, rest := NextField(c).0, NextField(c).1;
      if field == Missing {
        alternateBases := [];
      } else {
        var alts := p.alternateBases(field);
        if alts.Err? { return Err(InvalidAlternateBases(alts.error)); }
        alternateBases := alts.value;
      }
      r := ReadQualityScoreColumn(rest, p);
    }

    method ReadQualityScoreColumn(c: string, p: Parsers) returns (r: Result<(), IoError>)
      modifies this
      ensures (r, Value()) == ReadQualityScore(c, old(Value()), p)
    {
      var field, rest := NextField(c).0, NextField(c).1;
      if field == Missing {
        qualityScore := None;
      } else {
        var quality := p.qualityScore(field);
        if quality.Err? { return Err(InvalidData(InvalidQualityScore(quality.error))); }
        qualityScore := Some(quality.value);
      }
      r := ReadFiltersColumn(rest, p);
    }

    method ReadFiltersColumn(c: string, p: Parsers) returns (r: Result<(), IoError>)
      modifies this
      ensures (r, Value()) == ReadFilters(c, old(Value()), p)
    {
      var field, rest := NextField(c).0, NextField(c).1;
      if field == Missing {
        filters := None;
      } else {
        var parsed := p.filters(field);
        if parsed.Err? { return Err(SubParser(parsed.error)); }
        filters := Some(parsed.value);
      }
      info := [];
      r := ReadInfoColumn(rest, p);
    }

    method ReadInfoColumn(c: string, p: Parsers) returns (r: Result<(), IoError>)
      modifies this
      ensures (r, Value()) == ReadInfo(c, old(Value()), p)
    {
      var field, rest := NextField(c).0, NextField(c).1;
      if field != Missing {
        var parsed := p.info(field);
        if parsed.Err? { return Err(SubParser(parsed.error)); }
        info := parsed.value;
      }
      r := ReadGenotypesColumn(rest, p);
    }

    method ReadGenotypesColumn(c: string, p: Parsers) returns (r: Result<(), IoError>)
      modifies this
      ensures (r, Value()) == ReadGenotypes(c, old(Value()), p)
    {
      var parsed := p.genotypes(c);
      if parsed.Err? { return Err(SubParser(parsed.error)); }
      genotypes := parsed.value;
      r := Ok(());
    }
  }
}
