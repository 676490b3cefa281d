/**
 * Parsing a raw SAM header: the first line may be @HD and may set the version every line is
 * parsed with; later lines may not be @HD, and reference sequence names, read group IDs and
 * program IDs may not repeat.
 *
 * Splitting the text into lines, extracting the version and parsing one record are not part of
 * this model: the input is the list of lines and the two parsers are passed in. The @HD and @RG
 * maps are kept as their raw fields.
 */
module SamHeaderParser {
  import opened Wrappers
  import SamHeaderMap
  import SamReferenceSequence
  import SamProgram

  datatype Version = Version(major: nat, minor: nat)

  /** A parsed header line. */
  datatype Record =
    | HeaderRecord(header: SamHeaderMap.Fields)
    | ReferenceSequenceRecord(name: string, referenceSequence: SamReferenceSequence.ReferenceSequence)
    | ReadGroupRecord(id: string, readGroup: SamHeaderMap.Fields)
    | ProgramRecord(id: string, program: SamProgram.Program)
    | CommentRecord(comment: string)

  /** `Header`: the @HD map, if any, and the other records of each kind in line order. */
  datatype Header = Header(
    header: Option<SamHeaderMap.Fields>,
    referenceSequences: seq<(string, SamReferenceSequence.ReferenceSequence)>,
    readGroups: seq<(string, SamHeaderMap.Fields)>,
    programs: seq<(string, SamProgram.Program)>,
    comments: seq<string>)

  const EmptyHeader: Header := Header(None, [], [], [], [])

  /** `ParseError`; a record's own parse error is carried as a code. */
  datatype ParseError =
    | UnexpectedHeader
    | InvalidRecord(code: nat)
    | DuplicateReferenceSequenceName(name: string)
    | DuplicateReadGroupId(id: string)
    | DuplicateProgramId(id: string)
    | InvalidComment

  /**
   * `record::extract_version` (already transposed: no version is Ok(None)) and `Record::try_from`
   * with the context, which is the version of the first line or none.
   */
  datatype LineParsers = LineParsers(
    extractVersion: string -> Result<Option<Version>, nat>,
    parseRecord: (Option<Version>, string) -> Result<Record, nat>)

  /** The header builder: @HD sets the header map, every other record is added to its own list. */
  function Add(h: Header, rec: Record): Header
  {
    match rec
    case HeaderRecord(m) => h.(header := Some(m))
    case ReferenceSequenceRecord(name, rs) => h.(referenceSequences := h.referenceSequences + [(name, rs)])
    case ReadGroupRecord(id, rg) => h.(readGroups := h.readGroups + [(id, rg)])
    case ProgramRecord(id, pg) => h.(programs := h.programs + [(id, pg)])
    case CommentRecord(c) => h.(comments := h.comments + [c])
  }

  /** The header the records make when added in order. */
  function Collect(recs: seq<Record>): Header
  {
    if recs == [] then EmptyHeader else Add(Collect(recs[..|recs| - 1]), recs[|recs| - 1])
  }

  /** The parser's state: the header built so far and the names and IDs seen. */
  datatype State = State(
    header: Header,
    referenceSequenceNames: set<string>,
    readGroupIds: set<string>,
    programIds: set<string>)

  /** The first line's record is added without a check, and its name or ID is remembered. */
  function First(rec: Record): State
  {
    var h := Add(EmptyHeader, rec);
    match rec
    case ReferenceSequenceRecord(name, _) => State(h, {name}, {}, {})
    case ReadGroupRecord(id, _) => State(h, {}, {id}, {})
    case ProgramRecord(id, _) => State(h, {}, {}, {id})
    case _ => State(h, {}, {}, {})
  }

  /** A later line's record: @HD is UnexpectedHeader, and a name or ID already seen is a duplicate. */
  function Step(st: State, rec: Record): Result<State, ParseError>
  {
    match rec
    case HeaderRecord(_) => Err(UnexpectedHeader)
    case ReferenceSequenceRecord(name, _) =>
      if name in st.referenceSequenceNames then Err(DuplicateReferenceSequenceName(name))
      else Ok(st.(header := Add(st.header, rec), referenceSequenceNames := st.referenceSequenceNames + {name}))
    case ReadGroupRecord(id, _) =>
      if id in st.readGroupIds then Err(DuplicateReadGroupId(id))
      else Ok(st.(header := Add(st.header, rec), readGroupIds := st.readGroupIds + {id}))
    case ProgramRecord(id, _) =>
      if id in st.programIds then Err(DuplicateProgramId(id))
      else Ok(st.(header := Add(st.header, rec), programIds := st.programIds + {id}))
    case CommentRecord(_) => Ok(st.(header := Add(st.header, rec)))
  }

  /** The later lines, each parsed with `ctx` and applied in order, stopping at the first error. */
  function StepLines(st: State, ctx: Option<Version>, lines: seq<string>, p: LineParsers): Result<State, ParseError>
  {
    if lines == [] then Ok(st)
    else
      match StepLines(st, ctx, lines[..|lines| - 1], p)
      case Err(e) => Err(e)
      case Ok(prev) =>
        match p.parseRecord(ctx, lines[|lines| - 1])
        case Err(e) => Err(InvalidRecord(e))
        case Ok(rec) => Step(prev, rec)
  }

  /** `parse`: no lines is the empty header; otherwise the first line, then the others. */
  function ParseSpec(lines: seq<string>, p: LineParsers): Result<Header, ParseError>
  {
    if lines == [] then Ok(EmptyHeader)
    else
      match p.extractVersion(lines[0])
      case Err(e) => Err(InvalidRecord(e))
      case Ok(ctx) =>
        match p.parseRecord(ctx, lines[0])
        case Err(e) => Err(InvalidRecord(e))
        case Ok(rec) =>
          match StepLines(First(rec), ctx, lines[1..], p)
          case Err(e) => Err(e)
          case Ok(st) => Ok(st.header)
  }

  lemma {:induction false} StepLinesAppend(st: State, ctx: Option<Version>, a: seq<string>, b: seq<string>, p: LineParsers)
    ensures StepLines(st, ctx, a + b, p) ==
      match StepLines(st, ctx, a, p)
      case Err(e) => Err(e)
      case Ok(prev) => StepLines(prev, ctx, b, p)
    decreases |b|
  {
    if b == [] {
      assert a + b == a;
    } else {
      var n := |b| - 1;
      assert (a + b)[..|a + b| - 1] == a + b[..n];
      StepLinesAppend(st, ctx, a, b[..n], p);
    }
  }

  /** Once a prefix of the lines fails, the whole loop fails with the same error. */
  lemma StepLinesErrSticky(st: State, ctx: Option<Version>, lines: seq<string>, n: nat, p: LineParsers)
    requires n <= |lines| && StepLines(st, ctx, lines[..n], p).Err?
    ensures StepLines(st, ctx, lines, p) == StepLines(st, ctx, lines[..n], p)
  {
    StepLinesAppend(st, ctx, lines[..n], lines[n..], p);
    assert lines[..n] + lines[n..] == lines;
  }

  method Parse(lines: seq<string>, p: LineParsers) returns (r: Result<Header, ParseError>)
    ensures r == ParseSpec(lines, p)
  {
    var header := EmptyHeader;
    var ctx: Option<Version> := None;
    var readGroupIds: set<string> := {};
    var referenceSequenceNames: set<string> := {};
    var programIds: set<string> := {};
    if |lines| == 0 {
      return Ok(header);
    }
    var version := p.extractVersion(lines[0]);
    if version.Err? {
      return Err(InvalidRecord(version.error));
    }
    if version.value.Some? {
      ctx := version.value;
    }
    var first := p.parseRecord(ctx, lines[0]);
    if first.Err? {
      return Err(InvalidRecord(first.error));
    }
    match first.value {
      case ReferenceSequenceRecord(name, _) => referenceSequenceNames := referenceSequenceNames + {name};
      case ReadGroupRecord(id, _) => readGroupIds := readGroupIds + {id};
      case ProgramRecord(id, _) => programIds := programIds + {id};
      case HeaderRecord(_) =>
      case CommentRecord(_) =>
    }
    header := Add(header, first.value);
    ghost var rest := lines[1..];
    assert rest[..0] == [];
    assert State(header, referenceSequenceNames, readGroupIds, programIds) == First(first.value);
    for i := 1 to |lines|
      invariant StepLines(First(first.value), ctx, rest[..i - 1], p)
        == Ok(State(header, referenceSequenceNames, readGroupIds, programIds))
    {
      assert rest[..i][..i - 1] == rest[..i - 1] && rest[i - 1] == lines[i];
      var record := p.parseRecord(ctx, lines[i]);
      if record.Err? {
        StepLinesErrSticky(First(first.value), ctx, rest, i, p);
        return Err(InvalidRecord(record.error));
      }
      match record.value {
        case HeaderRecord(_) =>
          StepLinesErrSticky(First(first.value), ctx, rest, i, p);
          return Err(UnexpectedHeader);
        case ReferenceSequenceRecord(name, _) =>
          if name in referenceSequenceNames {
            StepLinesErrSticky(First(first.value), ctx, rest, i, p);
            return Err(DuplicateReferenceSequenceName(name));
          }
          referenceSequenceNames := referenceSequenceNames + {name};
        case ReadGroupRecord(id, _) =>
          if id in readGroupIds {
            StepLinesErrSticky(First(first.value), ctx, rest, i, p);
            return Err(DuplicateReadGroupId(id));
          }
          readGroupIds := readGroupIds + {id};
        case ProgramRecord(id, _) =>
          if id in programIds {
            StepLinesErrSticky(First(first.value), ctx, rest, i, p);
            return Err(DuplicateProgramId(id));
          }
          programIds := programIds + {id};
        case CommentRecord(_) =>
      }
      header := Add(header, record.value);
    }
    assert rest[..|lines| - 1] == rest;
    return Ok(header);
  }

  /** The kinds of record whose names or IDs must be unique. */
  datatype Kind = ReferenceSequenceName | ReadGroupId | ProgramId

  /** The kind and name or ID of a record that has one. */
  function Key(rec: Record): Option<(Kind, string)>
  {
    match rec
    case ReferenceSequenceRecord(name, _) => Some((ReferenceSequenceName, name))
    case ReadGroupRecord(id, _) => Some((ReadGroupId, id))
    case ProgramRecord(id, _) => Some((ProgramId, id))
    case _ => None
  }

  /** Some record of `recs` has kind `k` and name or ID `n`. */
  ghost predicate SeenIn(recs: seq<Record>, k: Kind, n: string)
  {
    exists i :: 0 <= i < |recs| && Key(recs[i]) == Some((k, n))
  }

  /** The names or IDs of kind `k` among the records. */
  function Names(recs: seq<Record>, k: Kind): set<string>
  {
    if recs == [] then {}
    else
      var prev := Names(recs[..|recs| - 1], k);
      var key := Key(recs[|recs| - 1]);
      if key.Some? && key.value.0 == k then prev + {key.value.1} else prev
  }

  lemma {:induction false} NamesSpec(recs: seq<Record>, k: Kind, n: string)
    ensures n in Names(recs, k) <==> SeenIn(recs, k, n)
  {
    if recs != [] {
      var m := |recs| - 1;
      NamesSpec(recs[..m], k, n);
      if SeenIn(recs[..m], k, n) {
        var i :| 0 <= i < m && Key(recs[..m][i]) == Some((k, n));
        assert Key(recs[i]) == Some((k, n));
      }
      if SeenIn(recs, k, n) {
        var i :| 0 <= i < |recs| && Key(recs[i]) == Some((k, n));
        if i < m {
          assert Key(recs[..m][i]) == Some((k, n));
        }
      }
    }
  }

  /** Records a header accepts: @HD only first, and no name or ID twice within its kind. */
  ghost predicate Acceptable(recs: seq<Record>)
  {
    && (forall i :: 0 < i < |recs| ==> !recs[i].HeaderRecord?)
    && (forall i, j :: 0 <= i < j < |recs| && Key(recs[i]).Some? ==> Key(recs[i]) != Key(recs[j]))
  }

  lemma AcceptablePrefix(recs: seq<Record>, m: nat)
    requires m <= |recs| && Acceptable(recs)
    ensures Acceptable(recs[..m])
  {
  }

  lemma AcceptableSnoc(recs: seq<Record>, rec: Record)
    requires |recs| >= 1
    ensures Acceptable(recs + [rec]) <==>
      && Acceptable(recs)
      && !rec.HeaderRecord?
      && (Key(rec).Some? ==> !SeenIn(recs, Key(rec).value.0, Key(rec).value.1))
  {
    var all := recs + [rec];
    assert all[..|recs|] == recs;
    assert all[|recs|] == rec;
    if Acceptable(all) {
      AcceptablePrefix(all, |recs|);
      if Key(rec).Some? {
        forall i | 0 <= i < |recs|
          ensures Key(recs[i]) != Key(rec)
        {
          assert all[i] == recs[i];
        }
      }
    }
  }

  /** The state the parser holds after the records `recs`. */
  function StateOf(recs: seq<Record>): State
  {
    State(Collect(recs), Names(recs, ReferenceSequenceName), Names(recs, ReadGroupId), Names(recs, ProgramId))
  }

  /** All the lines parse with the context. */
  ghost predicate ParsesAll(ctx: Option<Version>, lines: seq<string>, p: LineParsers)
  {
    forall i :: 0 <= i < |lines| ==> p.parseRecord(ctx, lines[i]).Ok?
  }

  /** The records of the lines, each parsed with the context. */
  ghost function RecordsOf(ctx: Option<Version>, lines: seq<string>, p: LineParsers): (recs: seq<Record>)
    requires ParsesAll(ctx, lines, p)
    ensures |recs| == |lines|
    ensures forall i :: 0 <= i < |lines| ==> p.parseRecord(ctx, lines[i]) == Ok(recs[i])
  {
    seq(|lines|, i requires 0 <= i < |lines| => p.parseRecord(ctx, lines[i]).value)
  }

  lemma StepAccepted(recs: seq<Record>, rec: Record)
    requires |recs| >= 1
    ensures var r := Step(StateOf(recs), rec);
      && (r.Ok? <==> !rec.HeaderRecord? && (Key(rec).Some? ==> !SeenIn(recs, Key(rec).value.0, Key(rec).value.1)))
      && (Acceptable(recs + [rec]) <==> Acceptable(recs) && r.Ok?)
      && (r.Ok? ==> r.value == StateOf(recs + [rec]))
  {
    AcceptableSnoc(recs, rec);
    assert (recs + [rec])[..|recs|] == recs;
    if Key(rec).Some? {
      NamesSpec(recs, Key(rec).value.0, Key(rec).value.1);
    }
  }

  /** The first line's state is the one its record alone makes. */
  lemma FirstState(r0: Record)
    ensures First(r0) == StateOf([r0])
  {
    assert [r0][..0] == [];
    assert Collect([r0]) == Add(EmptyHeader, r0);
    assert Names([r0], ReferenceSequenceName) == if r0.ReferenceSequenceRecord? then {r0.name} else {};
    assert Names([r0], ReadGroupId) == if r0.ReadGroupRecord? then {r0.id} else {};
    assert Names([r0], ProgramId) == if r0.ProgramRecord? then {r0.id} else {};
  }

  /** The records of lines that all parse: the first line's record, then those of the others. */
  lemma RecordsOfCons(ctx: Option<Version>, lines: seq<string>, p: LineParsers)
    requires lines != [] && p.parseRecord(ctx, lines[0]).Ok?
    ensures ParsesAll(ctx, lines, p) <==> ParsesAll(ctx, lines[1..], p)
    ensures ParsesAll(ctx, lines, p) ==>
      RecordsOf(ctx, lines, p) == [p.parseRecord(ctx, lines[0]).value] + RecordsOf(ctx, lines[1..], p)
  {
    var rest := lines[1..];
    if ParsesAll(ctx, rest, p) {
      forall i | 0 < i < |lines|
        ensures p.parseRecord(ctx, lines[i]).Ok?
      {
        assert lines[i] == rest[i - 1];
      }
    }
    if ParsesAll(ctx, lines, p) {
      forall i | 0 <= i < |rest|
        ensures p.parseRecord(ctx, rest[i]).Ok?
      {
        assert rest[i] == lines[i + 1];
      }
    }
  }

  /**
   * After the first line's record `r0`, the later lines succeed exactly when they all parse and
   * the records together are acceptable, and the state is then the one those records make.
   */
  lemma {:induction false} StepLinesSpec(r0: Record, ctx: Option<Version>, rest: seq<string>, p: LineParsers)
    ensures var res := StepLines(First(r0), ctx, rest, p);
      && (res.Ok? <==> ParsesAll(ctx, rest, p) && Acceptable([r0] + RecordsOf(ctx, rest, p)))
      && (res.Ok? ==> ParsesAll(ctx, rest, p) && res.value == StateOf([r0] + RecordsOf(ctx, rest, p)))
  {
    if rest == [] {
      assert [r0] + RecordsOf(ctx, rest, p) == [r0];
      FirstState(r0);
    } else {
      StepLinesSpec(r0, ctx, rest[..|rest| - 1], p);
      StepLinesGrow(r0, ctx, rest, p);
    }
  }

  /** The property of `StepLinesSpec` for the lines `rest`. */
  ghost predicate StepLinesMeets(r0: Record, ctx: Option<Version>, rest: seq<string>, p: LineParsers)
  {
    var res := StepLines(First(r0), ctx, rest, p);
    && (res.Ok? <==> ParsesAll(ctx, rest, p) && Acceptable([r0] + RecordsOf(ctx, rest, p)))
    && (res.Ok? ==> ParsesAll(ctx, rest, p) && res.value == StateOf([r0] + RecordsOf(ctx, rest, p)))
  }

  /** One more line keeps the property of `StepLinesSpec`. */
  lemma StepLinesGrow(r0: Record, ctx: Option<Version>, rest: seq<string>, p: LineParsers)
    requires rest != []
    requires StepLinesMeets(r0, ctx, rest[..|rest| - 1], p)
    ensures StepLinesMeets(r0, ctx, rest, p)
  {
    var n := |rest| - 1;
    var init := rest[..n];
    var res0 := StepLines(First(r0), ctx, init, p);
    if ParsesAll(ctx, rest, p) {
      assert ParsesAll(ctx, init, p);
      var all := [r0] + RecordsOf(ctx, rest, p);
      var before := [r0] + RecordsOf(ctx, init, p);
      var rec := RecordsOf(ctx, rest, p)[n];
      assert all == before + [rec];
      if res0.Ok? {
        StepAccepted(before, rec);
      } else if Acceptable(all) {
        AcceptablePrefix(all, n + 1);
      }
    }
  }

  /**
   * A header that parses the first line succeeds exactly when every line parses with the first
   * line's version, @HD appears only on the first line, and no reference sequence name, read group
   * ID or program ID repeats; the header then holds every record, each kind in line order.
   */
  lemma ParseAccepts(lines: seq<string>, p: LineParsers)
    requires lines != [] && p.extractVersion(lines[0]).Ok?
    ensures var ctx := p.extractVersion(lines[0]).value;
      var r := ParseSpec(lines, p);
      && (r.Ok? <==> ParsesAll(ctx, lines, p) && Acceptable(RecordsOf(ctx, lines, p)))
      && (r.Ok? ==> ParsesAll(ctx, lines, p) && r.value == Collect(RecordsOf(ctx, lines, p)))
  {
    var ctx := p.extractVersion(lines[0]).value;
    if p.parseRecord(ctx, lines[0]).Ok? {
      StepLinesSpec(p.parseRecord(ctx, lines[0]).value, ctx, lines[1..], p);
      RecordsOfCons(ctx, lines, p);
    }
  }

  /** Lines that parse and are acceptable leave the parser in the state their records make. */
  lemma PrefixState(lines: seq<string>, p: LineParsers, j: nat)
    requires 0 < j <= |lines| && p.extractVersion(lines[0]).Ok?
    requires ParsesAll(p.extractVersion(lines[0]).value, lines[..j], p)
    requires Acceptable(RecordsOf(p.extractVersion(lines[0]).value, lines[..j], p))
    ensures var ctx := p.extractVersion(lines[0]).value;
      var earlier := RecordsOf(ctx, lines[..j], p);
      && p.parseRecord(ctx, lines[0]) == Ok(earlier[0])
      && StepLines(First(earlier[0]), ctx, lines[1..][..j - 1], p) == Ok(StateOf(earlier))
  {
    var ctx := p.extractVersion(lines[0]).value;
    var prefix := lines[..j];
    assert prefix[0] == lines[0] && prefix[1..] == lines[1..][..j - 1];
    RecordsOfCons(ctx, prefix, p);
    StepLinesSpec(RecordsOf(ctx, prefix, p)[0], ctx, prefix[1..], p);
  }

  /**
   * The first line that breaks the rules decides the error: with every earlier line parsed and
   * acceptable, a line that does not parse is InvalidRecord, a later @HD is UnexpectedHeader, and a
   * name or ID seen on an earlier line is the duplicate error of its kind.
   */
  lemma ParseFirstError(lines: seq<string>, p: LineParsers, j: nat)
    requires 0 < j < |lines| && p.extractVersion(lines[0]).Ok?
    requires ParsesAll(p.extractVersion(lines[0]).value, lines[..j], p)
    requires Acceptable(RecordsOf(p.extractVersion(lines[0]).value, lines[..j], p))
    ensures var ctx := p.extractVersion(lines[0]).value;
      var earlier := RecordsOf(ctx, lines[..j], p);
      var next := p.parseRecord(ctx, lines[j]);
      && (next.Err? ==> ParseSpec(lines, p) == Err(InvalidRecord(next.error)))
      && (next.Ok? && next.value.HeaderRecord? ==> ParseSpec(lines, p) == Err(UnexpectedHeader))
      && (next.Ok? && next.value.ReferenceSequenceRecord? && SeenIn(earlier, ReferenceSequenceName, next.value.name)
          ==> ParseSpec(lines, p) == Err(DuplicateReferenceSequenceName(next.value.name)))
      && (next.Ok? && next.value.ReadGroupRecord? && SeenIn(earlier, ReadGroupId, next.value.id)
          ==> ParseSpec(lines, p) == Err(DuplicateReadGroupId(next.value.id)))
      && (next.Ok? && next.value.ProgramRecord? && SeenIn(earlier, ProgramId, next.value.id)
          ==> ParseSpec(lines, p) == Err(DuplicateProgramId(next.value.id)))
  {
    var ctx := p.extractVersion(lines[0]).value;
    var earlier := RecordsOf(ctx, lines[..j], p);
    var rest := lines[1..];
    PrefixState(lines, p, j);
    assert rest[..j][..j - 1] == rest[..j - 1] && rest[..j][j - 1] == lines[j];
    var next := p.parseRecord(ctx, lines[j]);
    if next.Ok? && Key(next.value).Some? {
      NamesSpec(earlier, Key(next.value).value.0, Key(next.value).value.1);
    }
    if StepLines(First(earlier[0]), ctx, rest[..j], p).Err? {
      StepLinesErrSticky(First(earlier[0]), ctx, rest, j, p);
    }
  }

  /** The test at parser.rs:200-211: no lines give the empty header. */
  lemma ParseEmptyInput(p: LineParsers)
    ensures ParseSpec([], p) == Ok(EmptyHeader)
    ensures EmptyHeader.header.None? && EmptyHeader.referenceSequences == [] && EmptyHeader.comments == []
  {
  }

  /** The tests at parser.rs:221-270: a line repeated after a first line of the same content. */
  lemma ParseRepeatedLine(line: string, p: LineParsers)
    requires p.extractVersion(line).Ok? && p.parseRecord(p.extractVersion(line).value, line).Ok?
    ensures var rec := p.parseRecord(p.extractVersion(line).value, line).value;
      && (rec.HeaderRecord? ==> ParseSpec([line, line], p) == Err(UnexpectedHeader))
      && (rec.ReferenceSequenceRecord? ==> ParseSpec([line, line], p) == Err(DuplicateReferenceSequenceName(rec.name)))
      && (rec.ReadGroupRecord? ==> ParseSpec([line, line], p) == Err(DuplicateReadGroupId(rec.id)))
      && (rec.ProgramRecord? ==> ParseSpec([line, line], p) == Err(DuplicateProgramId(rec.id)))
      && (rec.CommentRecord? ==> ParseSpec([line, line], p) == Ok(EmptyHeader.(comments := [rec.comment, rec.comment])))
  {
    var lines := [line, line];
    var ctx := p.extractVersion(line).value;
    var rec := p.parseRecord(ctx, line).value;
    assert lines[1..] == [line] && [line][..0] == [];
    assert StepLines(First(rec), ctx, [], p) == Ok(First(rec));
    assert StepLines(First(rec), ctx, [line], p) == Step(First(rec), rec);
    if rec.CommentRecord? {
      assert [] + [rec.comment] + [rec.comment] == [rec.comment, rec.comment];
    }
  }
}
