/**
 * The CSI indexer: records arrive sorted by reference sequence; each reference sequence's
 * records go to one open builder, which is finished (and replaced by an empty one) when a record
 * of a later reference sequence arrives. Records without an alignment context are only counted.
 *
 * The binning a reference sequence builder performs is not part of this model: a builder keeps
 * the records it receives, in order, and a finished reference sequence holds them.
 */
module CsiIndexer {
  import opened Wrappers

  /** A 1-based coordinate. */
  type Position = p: int | p >= 1 witness 1

  /** A range of BGZF virtual positions. */
  datatype Chunk = Chunk(start: nat, end: nat)

  /** The reference sequence a record is placed on, its span, and whether it is mapped. */
  datatype AlignmentContext =
    AlignmentContext(referenceSequenceId: nat, start: Position, end: Position, isMapped: bool)

  /** What one placed record hands to the open reference sequence builder. */
  datatype BinRecord = BinRecord(start: Position, end: Position, isMapped: bool, chunk: Chunk)

  /** A finished reference sequence: the records its builder received. */
  datatype ReferenceSequence = ReferenceSequence(records: seq<BinRecord>)

  datatype Index = Index(referenceSequences: seq<ReferenceSequence>, unplacedUnmappedRecordCount: nat)

  /** `io::ErrorKind::InvalidInput`: a reference sequence id below the current one. */
  datatype IoError = InvalidInput

  /** The indexer's mutable state: the open builder, the finished sequences, the unplaced count. */
  datatype State = State(
    builder: seq<BinRecord>,
    referenceSequences: seq<ReferenceSequence>,
    unplacedUnmappedRecordCount: nat)

  /** The records of a list of reference sequences, in order. */
  function Flatten(rs: seq<ReferenceSequence>): seq<BinRecord>
  {
    if rs == [] then [] else Flatten(rs[..|rs| - 1]) + rs[|rs| - 1].records
  }

  lemma FlattenSnoc(rs: seq<ReferenceSequence>, r: ReferenceSequence)
    ensures Flatten(rs + [r]) == Flatten(rs) + r.records
  {
    assert (rs + [r])[..|rs|] == rs;
  }

  /** Every placed record the state holds: the finished ones, then the open builder's. */
  function Records(st: State): seq<BinRecord>
  {
    Flatten(st.referenceSequences) + st.builder
  }

  /** `mem::take` of the open builder, then `build` and `push`. */
  function Finish(st: State): State
  {
    st.(builder := [], referenceSequences := st.referenceSequences + [ReferenceSequence(st.builder)])
  }

  /** `add_reference_sequences_builders_until`: finishes builders while fewer than `id` are stored. */
  function BuildersUntil(st: State, id: nat): State
    decreases id - |st.referenceSequences|
  {
    if |st.referenceSequences| < id then BuildersUntil(Finish(st), id) else st
  }

  /**
   * `add_reference_sequences_builders_until` stores exactly `id` sequences when it had fewer
   * (the open builder's records first, then empty ones) and changes nothing otherwise; no placed
   * record is lost or reordered.
   */
  lemma {:induction false} BuildersUntilShape(st: State, id: nat)
    ensures var r := BuildersUntil(st, id);
      && |r.referenceSequences| == (if id < |st.referenceSequences| then |st.referenceSequences| else id)
      && r.referenceSequences[..|st.referenceSequences|] == st.referenceSequences
      && r.unplacedUnmappedRecordCount == st.unplacedUnmappedRecordCount
      && Records(r) == Records(st)
      && (id <= |st.referenceSequences| ==> r == st)
      && (|st.referenceSequences| < id ==>
            r.builder == [] && r.referenceSequences[|st.referenceSequences|] == ReferenceSequence(st.builder)
            && forall j :: |st.referenceSequences| < j < id ==> r.referenceSequences[j].records == [])
    decreases id - |st.referenceSequences|
  {
    if |st.referenceSequences| < id {
      var f := Finish(st);
      var n := |st.referenceSequences|;
      BuildersUntilShape(f, id);
      FlattenSnoc(st.referenceSequences, ReferenceSequence(st.builder));
      var r := BuildersUntil(f, id);
      assert r.referenceSequences[..n + 1] == f.referenceSequences;
      assert r.referenceSequences[..n] == r.referenceSequences[..n + 1][..n];
      if n + 1 < id {
        assert r.referenceSequences[n + 1] == ReferenceSequence([]);
      }
    }
  }

  /**
   * `add_record`: no alignment context counts the record as unplaced; a reference sequence id
   * below the current one (the number of finished sequences) is InvalidInput with nothing
   * changed; a later id first finishes builders up to it; the record then goes to the open builder.
   */
  function AddRecordSpec(st: State, ctx: Option<AlignmentContext>, chunk: Chunk): (Result<(), IoError>, State)
  {
    match ctx
    case None => (Ok(()), st.(unplacedUnmappedRecordCount := st.unplacedUnmappedRecordCount + 1))
    case Some(c) =>
      var id := c.referenceSequenceId;
      if id < |st.referenceSequences| then (Err(InvalidInput), st)
      else
        var placed := if id == |st.referenceSequences| then st else BuildersUntil(st, id);
        (Ok(()), placed.(builder := placed.builder + [BinRecord(c.start, c.end, c.isMapped, chunk)]))
  }

  /** An unplaced record only raises the unplaced count. */
  lemma AddRecordUnplaced(st: State, chunk: Chunk)
    ensures AddRecordSpec(st, None, chunk)
      == (Ok(()), st.(unplacedUnmappedRecordCount := st.unplacedUnmappedRecordCount + 1))
    ensures Records(AddRecordSpec(st, None, chunk).1) == Records(st)
  {
  }

  /**
   * A placed record is accepted exactly when its id is not below the current one. Rejected, the
   * state is unchanged; accepted, the current id becomes its id, the record is the last of the
   * open builder and of all placed records, and the unplaced count is unchanged.
   */
  lemma AddRecordPlaced(st: State, c: AlignmentContext, chunk: Chunk)
    ensures var (r, s) := AddRecordSpec(st, Some(c), chunk);
      && (r.Ok? <==> c.referenceSequenceId >= |st.referenceSequences|)
      && (r.Err? ==> r.error == InvalidInput && s == st)
      && (r.Ok? ==>
            && |s.referenceSequences| == c.referenceSequenceId
            && s.builder != [] && s.builder[|s.builder| - 1] == BinRecord(c.start, c.end, c.isMapped, chunk)
            && Records(s) == Records(st) + [BinRecord(c.start, c.end, c.isMapped, chunk)]
            && s.unplacedUnmappedRecordCount == st.unplacedUnmappedRecordCount)
  {
    BuildersUntilShape(st, c.referenceSequenceId);
  }

  /**
   * `build` as written: for a count n > 0 it finishes builders only until n - 1 are stored and
   * leaves the open builder out of the index.
   */
  function BuildIndexAsWritten(st: State, n: nat): Index
  {
    if n == 0 then Index([], st.unplacedUnmappedRecordCount)
    else Index(BuildersUntil(st, n - 1).referenceSequences, st.unplacedUnmappedRecordCount)
  }

  /** `build` as intended: the open builder becomes reference sequence n - 1. */
  function BuildIndex(st: State, n: nat): Index
  {
    if n == 0 then Index([], st.unplacedUnmappedRecordCount)
    else Index(BuildersUntil(st, n).referenceSequences, st.unplacedUnmappedRecordCount)
  }

  /**
   * As written, `build(n)` with the records of sequence n - 1 still open holds only n - 1
   * sequences, and those records are not in the index.
   */
  lemma BuildIndexAsWrittenDropsOpenBuilder(st: State, n: nat)
    requires n > 0 && |st.referenceSequences| == n - 1
    ensures |BuildIndexAsWritten(st, n).referenceSequences| == n - 1
    ensures Flatten(BuildIndexAsWritten(st, n).referenceSequences) + st.builder == Records(st)
  {
    BuildersUntilShape(st, n - 1);
  }

  /** A fresh indexer given one record on reference sequence 0 and built with a count of 1 indexes nothing. */
  lemma BuildIndexAsWrittenLosesRecord(chunk: Chunk)
    ensures var st := AddRecordSpec(State([], [], 0), Some(AlignmentContext(0, 1, 1, true)), chunk).1;
      && Records(st) == [BinRecord(1, 1, true, chunk)]
      && BuildIndexAsWritten(st, 1) == Index([], 0)
  {
    var st := AddRecordSpec(State([], [], 0), Some(AlignmentContext(0, 1, 1, true)), chunk).1;
    assert st == State([BinRecord(1, 1, true, chunk)], [], 0);
  }

  /**
   * When every placed record's id is below n, `build(n)` indexes exactly n reference sequences
   * holding every placed record, in order, and carries the unplaced count over; `build(0)` holds
   * only the unplaced count.
   */
  lemma BuildKeepsRecords(st: State, n: nat)
    requires |st.referenceSequences| < n
    ensures |BuildIndex(st, n).referenceSequences| == n
    ensures Flatten(BuildIndex(st, n).referenceSequences) == Records(st)
    ensures BuildIndex(st, n).unplacedUnmappedRecordCount == st.unplacedUnmappedRecordCount
  {
    BuildersUntilShape(st, n);
  }

  class Indexer {
    const minShift: nat
    const depth: nat
    var referenceSequenceBuilder: seq<BinRecord>
    var referenceSequences: seq<ReferenceSequence>
    var unplacedUnmappedRecordCount: nat

    function Value(): State
      reads this
    {
      State(referenceSequenceBuilder, referenceSequences, unplacedUnmappedRecordCount)
    }

    /** `Indexer::new`: an empty open builder, no reference sequences, no unplaced records. */
    constructor (minShift: nat, depth: nat)
      requires minShift < 0x100 && depth < 0x100
      ensures this.minShift == minShift && this.depth == depth
      ensures Value() == State([], [], 0)
    {
      this.minShift := minShift;
      this.depth := depth;
      referenceSequenceBuilder := [];
      referenceSequences := [];
      unplacedUnmappedRecordCount := 0;
    }

    /** `current_reference_sequence_id`. */
    function CurrentReferenceSequenceId(): nat
      reads this
    {
      |referenceSequences|
    }

    method AddRecord(ctx: Option<AlignmentContext>, chunk: Chunk) returns (r: Result<(), IoError>)
      modifies this
      ensures (r, Value()) == AddRecordSpec(old(Value()), ctx, chunk)
    {
      if ctx.None? {
        unplacedUnmappedRecordCount := unplacedUnmappedRecordCount + 1;
        return Ok(());
      }
      var c := ctx.value;
      var current := CurrentReferenceSequenceId();
      if c.referenceSequenceId < current {
        return Err(InvalidInput);
      } else if c.referenceSequenceId > current {
        AddReferenceSequencesBuildersUntil(c.referenceSequenceId);
      }
      referenceSequenceBuilder := referenceSequenceBuilder + [BinRecord(c.start, c.end, c.isMapped, chunk)];
      return Ok(());
    }

    /** `build`, with the open builder kept as the last reference sequence. */
    method Build(referenceSequenceCount: nat) returns (index: Index)
      modifies this
      ensures index == BuildIndex(old(Value()), referenceSequenceCount)
    {
      if referenceSequenceCount == 0 {
        return Index([], unplacedUnmappedRecordCount);
      }
      ghost var before := Value();
      AddReferenceSequencesBuildersUntil(referenceSequenceCount);
      BuildersUntilShape(before, referenceSequenceCount);
      return Index(referenceSequences, unplacedUnmappedRecordCount);
    }

    method AddReferenceSequencesBuildersUntil(id: nat)
      modifies this
      ensures Value() == BuildersUntil(old(Value()), id)
    {
      while |referenceSequences| < id
        invariant BuildersUntil(Value(), id) == BuildersUntil(old(Value()), id)
        decreases id - |referenceSequences|
      {
        var finished := ReferenceSequence(referenceSequenceBuilder);
        referenceSequenceBuilder := [];
        referenceSequences := referenceSequences + [finished];
      }
    }
  }
}
