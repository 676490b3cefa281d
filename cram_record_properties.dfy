/**
 * Properties of the CRAM record reader: how many bases, scores and features a record holds, the
 * order of feature positions, the sentinel values of the positional fields, and what each stage
 * of a record leaves as it was.
 */
module CramRecordProperties {
  import opened Wrappers
  import opened RustNum
  import opened CramRecord

  /** `n` checked bytes that are read are `n` bytes, each a valid base (BA) or score (QS). */
  lemma {:induction false} ManyReadsCount(x: Context, ds: DataSeries, n: nat, s: Streams)
    requires Supported(x.header) && (ds == BA || ds == QS)
    ensures var (r, _) := ManySpec(x, ds, n, s);
      r.Ok? ==> |r.value| == n && AllValid(x.with, ds, r.value)
    decreases n
  {
    if n > 0 {
      var (b, s1) := CheckedByteSpec(x, ds, s);
      if b.Ok? {
        ManyReadsCount(x, ds, n - 1, s1);
        var (rest, _) := ManySpec(x, ds, n - 1, s1);
        if rest.Ok? {
          assert ManySpec(x, ds, n, s).0.value == [b.value] + rest.value;
        }
      }
    }
  }

  /** The body of a feature keeps the position it is given. */
  lemma FeatureBodyPosition(x: Context, code: Byte, position: Position, s: Streams)
    requires Supported(x.header) && IsFeatureCode(code)
    ensures var (r, _) := FeatureBodySpec(x, code, position, s);
      r.Ok? ==> r.value.position == position
  {
  }

  /**
   * A feature that is read sits at the previous feature's position plus the FP delta read after
   * its code; a position of 0, possible only for the first feature of a read, is InvalidData.
   */
  lemma FeaturePosition(x: Context, prev: nat, s: Streams)
    requires Supported(x.header)
    ensures var (code, s1) := FeatureCodeSpec(x, s);
      var (delta, s2) := UsizeSpec(x, FP, s1);
      var (r, s3) := FeatureSpec(x, prev, s);
      && (r.Ok? ==> code.Ok? && delta.Ok? && r.value.position == prev + delta.value)
      && (code.Ok? && delta.Ok? && prev + delta.value == 0 ==> r == Err(Io(InvalidData)) && s3 == s2)
  {
    var (code, s1) := FeatureCodeSpec(x, s);
    var (delta, s2) := UsizeSpec(x, FP, s1);
    if code.Ok? && delta.Ok? && prev + delta.value != 0 {
      FeatureBodyPosition(x, code.value, prev + delta.value, s2);
    }
  }

  /** A feature that is read is at or after the previous one. */
  lemma FeatureAfterPrev(x: Context, prev: nat, s: Streams)
    requires Supported(x.header)
    ensures var f := FeatureSpec(x, prev, s).0;
      f.Ok? ==> prev <= f.value.position
  {
    FeaturePosition(x, prev, s);
  }

  /** Positions that are at or after `prev`, each at or after the one before it. */
  predicate Ordered(fs: seq<Feature>, prev: nat)
    decreases |fs|
  {
    fs == [] || (prev <= fs[0].position && Ordered(fs[1..], fs[0].position))
  }

  /** Ordered features are all at or after `prev`, and their positions never decrease. */
  lemma {:induction false} OrderedSorted(fs: seq<Feature>, prev: nat)
    requires Ordered(fs, prev)
    ensures forall k :: 0 <= k < |fs| ==> prev <= fs[k].position
    ensures forall j, k :: 0 <= j <= k < |fs| ==> fs[j].position <= fs[k].position
    decreases |fs|
  {
    if fs != [] {
      var rest := fs[1..];
      OrderedSorted(rest, fs[0].position);
      forall j, k | 0 <= j <= k < |fs|
        ensures fs[j].position <= fs[k].position
      {
        if j > 0 {
          assert fs[j] == rest[j - 1] && fs[k] == rest[k - 1];
        } else if k > 0 {
          assert fs[k] == rest[k - 1];
        }
      }
      forall k | 0 <= k < |fs|
        ensures prev <= fs[k].position
      {
        if k > 0 {
          assert fs[k] == rest[k - 1];
        }
      }
    }
  }

  /** `n` features read from `s`, if they are read, are `n` ordered ones from `prev`. */
  predicate OrderedRun(x: Context, n: nat, prev: nat, s: Streams)
    requires Supported(x.header)
  {
    var r := FeaturesSpec(x, n, prev, s).0;
    r.Ok? ==> |r.value| == n && Ordered(r.value, prev)
  }

  /**
   * One step of FeaturesSpec: when every run of `m` features is ordered, so is a run of `m + 1`,
   * since its first feature is at or after `prev` and the rest are read from that feature's position.
   */
  lemma OrderedRunStep(x: Context, m: nat, prev: nat, s: Streams)
    requires Supported(x.header)
    requires forall p: nat, t: Streams :: OrderedRun(x, m, p, t)
    ensures OrderedRun(x, m + 1, prev, s)
  {
    var r := FeaturesSpec(x, m + 1, prev, s).0;
    if r.Ok? {
      var f := FeatureSpec(x, prev, s);
      FeatureAfterPrev(x, prev, s);
      assert OrderedRun(x, m, f.0.value.position, f.1);
      var rest := FeaturesSpec(x, m, f.0.value.position, f.1).0;
      assert r.value == [f.0.value] + rest.value;
      assert r.value[1..] == rest.value;
    }
  }

  /**
   * `n` features that are read are `n` features, none before `prev`, each at or after the one
   * before it: positions are deltas, so features are read in order along the read.
   */
  lemma {:induction false} FeaturesOrdered(x: Context, n: nat, prev: nat, s: Streams)
    requires Supported(x.header)
    ensures var r := FeaturesSpec(x, n, prev, s).0;
      r.Ok? ==> |r.value| == n && Ordered(r.value, prev)
    decreases n
  {
    if n > 0 {
      var m := n - 1;
      forall p: nat, t: Streams
        ensures OrderedRun(x, m, p, t)
      {
        FeaturesOrdered(x, m, p, t);
      }
      OrderedRunStep(x, m, prev, s);
    }
  }

  /** The slice's reference needs no read: an unmapped slice gives none and a single one its ID. */
  lemma ReferenceIdSentinels(x: Context, s: Streams)
    requires Supported(x.header)
    ensures x.referenceSequenceId == Unmapped ==> ReferenceIdSpec(x, s) == (Ok(None), s)
    ensures x.referenceSequenceId.Single? && x.referenceSequenceId.id >= 0
      ==> ReferenceIdSpec(x, s) == (Ok(Some(x.referenceSequenceId.id)), s)
    ensures x.referenceSequenceId.Single? && x.referenceSequenceId.id < -1
      ==> ReferenceIdSpec(x, s).0 == Err(Io(InvalidData))
  {
  }

  /**
   * The alignment start as AP reads it: the value itself, or, in delta mode, the previous start
   * (0 for the first record) plus the value; 0 is no start and a negative sum is InvalidData.
   */
  lemma AlignmentStartCases(x: Context, prev: Option<Position>, s: Streams)
    requires Supported(x.header)
    ensures var (v, s1) := Itf8Spec(x, AP, s);
      var p := if prev.Some? then prev.value else 0;
      var start := if v.Err? then 0 else if x.header.apDataSeriesDelta then p + v.value else v.value;
      var (r, s2) := AlignmentStartSpec(x, prev, s);
      && s2 == s1
      && (v.Err? ==> r == Err(v.error))
      && (v.Ok? && p <= I32_MAX && -0x8000_0000 <= start <= I32_MAX ==>
            && (r.Ok? <==> start >= 0)
            && (start == 0 ==> r == Ok(None))
            && (start > 0 ==> r == Ok(Some(start))))
  {
  }

  /** Reading the scores adds `readLength` valid scores when the CRAM flags store them, and changes nothing else. */
  lemma ScoresShape(x: Context, record: Record, flags: bv8, readLength: nat, s: Streams)
    requires Supported(x.header)
    ensures var (r, _) := ScoresSpec(x, record, flags, readLength, s);
      r.Ok? ==>
        && r.value.(qualityScores := record.qualityScores) == record
        && |r.value.qualityScores| == |record.qualityScores| + (if HasCramFlag(flags, CramScoresStoredAsArray) then readLength else 0)
        && r.value.qualityScores[..|record.qualityScores|] == record.qualityScores
        && AllValid(x.with, QS, r.value.qualityScores[|record.qualityScores|..])
  {
    if HasCramFlag(flags, CramScoresStoredAsArray) {
      ManyReadsCount(x, QS, readLength, s);
      var (scores, _) := ManySpec(x, QS, readLength, s);
      if scores.Ok? {
        assert (record.qualityScores + scores.value)[|record.qualityScores|..] == scores.value;
      }
    }
  }

  /** An unmapped read adds `readLength` valid bases, then its scores, and changes nothing else. */
  lemma UnmappedReadShape(x: Context, record: Record, flags: bv8, readLength: nat, s: Streams)
    requires Supported(x.header)
    ensures var (r, _) := UnmappedReadSpec(x, record, flags, readLength, s);
      r.Ok? ==>
        && r.value.(bases := record.bases, qualityScores := record.qualityScores) == record
        && |r.value.bases| == |record.bases| + readLength
        && r.value.bases[..|record.bases|] == record.bases
        && AllValid(x.with, BA, r.value.bases[|record.bases|..])
        && |r.value.qualityScores| == |record.qualityScores| + (if HasCramFlag(flags, CramScoresStoredAsArray) then readLength else 0)
  {
    ManyReadsCount(x, BA, readLength, s);
    var (bases, s1) := ManySpec(x, BA, readLength, s);
    if bases.Ok? {
      var withBases := record.(bases := record.bases + bases.value);
      ScoresShape(x, withBases, flags, readLength, s1);
      assert withBases.bases[|record.bases|..] == bases.value;
    }
  }

  /**
   * A mapped read adds its FN features, in order along the read, sets the mapping quality, then
   * its scores; its bases are left as they were.
   */
  lemma MappedReadShape(x: Context, record: Record, flags: bv8, readLength: nat, s: Streams)
    requires Supported(x.header)
    ensures var n := UsizeSpec(x, FN, s).0;
      var r := MappedReadSpec(x, record, flags, readLength, s).0;
      r.Ok? ==>
        && n.Ok?
        && r.value.(features := record.features, mappingQuality := record.mappingQuality,
                    qualityScores := record.qualityScores) == record
        && r.value.features == record.features + r.value.features[|record.features|..]
        && |r.value.features| == |record.features| + n.value
        && Ordered(r.value.features[|record.features|..], 0)
        && |r.value.qualityScores| == |record.qualityScores| + (if HasCramFlag(flags, CramScoresStoredAsArray) then readLength else 0)
  {
    var (n, s1) := UsizeSpec(x, FN, s);
    if n.Ok? {
      FeaturesOrdered(x, n.value, 0, s1);
      var (features, s2) := FeaturesSpec(x, n.value, 0, s1);
      if features.Ok? {
        var (quality, s3) := MappingQualitySpec(x, s2);
        if quality.Ok? {
          var all := record.features + features.value;
          ScoresShape(x, record.(features := all, mappingQuality := quality.value), flags, readLength, s3);
          assert all[|record.features|..] == features.value;
        }
      }
    }
  }

  /** Every BAM flag but "mate reverse complemented" and "mate unmapped" decides "unmapped" alike. */
  lemma MaskKeepsUnmapped(a: bv16, b: bv16)
    requires a & 0xFFD7 == b & 0xFFD7
    ensures HasBamFlag(a, BamUnmapped) <==> HasBamFlag(b, BamUnmapped)
  {
    assert a & 0x04 == (a & 0xFFD7) & 0x04;
    assert b & 0x04 == (b & 0xFFD7) & 0x04;
  }

  /**
   * The fields a record's stages before the tags leave alone, and every BAM flag but "mate
   * reverse complemented" (0x20) and "mate unmapped" (0x08).
   */
  predicate KeepsRead(before: Record, after: Record, bamFlags: bv16)
  {
    && after.bases == before.bases
    && after.qualityScores == before.qualityScores
    && after.features == before.features
    && after.cramBitFlags == before.cramBitFlags
    && SameButMateFlags(after.bamBitFlags, bamFlags)
  }

  /** BAM flags that agree on every bit but "mate reverse complemented" and "mate unmapped". */
  predicate SameButMateFlags(a: bv16, b: bv16)
  {
    a & 0xFFD7 == b & 0xFFD7
  }

  /** Positional data sets no bases, scores or features and leaves both sets of flags alone. */
  lemma PositionalDataKeeps(x: Context, prev: Option<Position>, record: Record, s: Streams)
    requires Supported(x.header)
    ensures var (r, _) := PositionalDataSpec(x, prev, record, s);
      r.Ok? ==> KeepsRead(record, r.value, record.bamBitFlags) && r.value.bamBitFlags == record.bamBitFlags
  {
  }

  /** Reading the name sets no bases, scores or features and leaves both sets of flags alone. */
  lemma ReadNamesKeeps(x: Context, record: Record, s: Streams)
    requires Supported(x.header)
    ensures var (r, _) := ReadNamesSpec(x, record, s);
      r.Ok? ==> KeepsRead(record, r.value, record.bamBitFlags) && r.value.bamBitFlags == record.bamBitFlags
  {
  }

  /** Reading the mate sets no bases, scores or features and leaves both sets of flags alone. */
  lemma MateKeeps(x: Context, record: Record, s: Streams)
    requires Supported(x.header)
    ensures var (r, _) := MateSpec(x, record, s);
      r.Ok? ==> KeepsRead(record, r.value, record.bamBitFlags) && r.value.bamBitFlags == record.bamBitFlags
  {
  }

  /** The detached branch of mate data: only the mate's two BAM flags may change. */
  lemma MateDataDetachedKeeps(x: Context, record: Record, bamFlags: bv16, flags: bv8, s: Streams)
    requires Supported(x.header) && HasCramFlag(flags, CramDetached)
    ensures var (r, _) := MateDataSpec(x, record, bamFlags, flags, s);
      r.Ok? ==> KeepsRead(record, r.value, bamFlags)
  {
    var (mateFlags, s1) := NextMateBitFlagsSpec(x, s);
    if mateFlags.Ok? {
      var r1 := record.(nextMateBitFlags := mateFlags.value, bamBitFlags := MateBamFlags(bamFlags, mateFlags.value));
      if x.header.readNamesIncluded {
        MateKeeps(x, r1, s1);
      } else {
        var (name, s2) := ReadNameSpec(x, s1);
        if name.Ok? {
          MateKeeps(x, r1.(readName := name.value), s2);
        }
      }
    }
  }

  /** Mate data sets no bases, scores or features, keeps the CRAM flags, and of the BAM flags may change only the mate's two. */
  lemma MateDataKeeps(x: Context, record: Record, bamFlags: bv16, flags: bv8, s: Streams)
    requires Supported(x.header) && SameButMateFlags(record.bamBitFlags, bamFlags)
    ensures var (r, _) := MateDataSpec(x, record, bamFlags, flags, s);
      r.Ok? ==> KeepsRead(record, r.value, bamFlags)
  {
    if HasCramFlag(flags, CramDetached) {
      MateDataDetachedKeeps(x, record, bamFlags, flags, s);
    } else if HasCramFlag(flags, CramHasMateDownstream) {
      var (d, s1) := UsizeSpec(x, NF, s);
      if d.Ok? {
        var after := record.(distanceToNextFragment := Some(d.value));
        assert MateDataSpec(x, record, bamFlags, flags, s).0 == Ok(after);
        assert after.bamBitFlags == record.bamBitFlags;
      } else {
        assert MateDataSpec(x, record, bamFlags, flags, s).0.Err?;
      }
    } else {
      assert MateDataSpec(x, record, bamFlags, flags, s).0 == Ok(record);
    }
  }

  /** The read name, then mate data, after positional data has left the BAM flags alone. */
  lemma NamesAndMateKeep(x: Context, record: Record, bamFlags: bv16, flags: bv8, s: Streams)
    requires Supported(x.header) && record.bamBitFlags == bamFlags
    ensures var (r2, s2) := ReadNamesSpec(x, record, s);
      r2.Ok? ==> var (r3, _) := MateDataSpec(x, r2.value, bamFlags, flags, s2);
        r3.Ok? ==> KeepsRead(record, r3.value, bamFlags)
  {
    ReadNamesKeeps(x, record, s);
    var (r2, s2) := ReadNamesSpec(x, record, s);
    if r2.Ok? {
      MateDataKeeps(x, r2.value, bamFlags, flags, s2);
    }
  }

  /**
   * Positional data, the read name and mate data set no bases, scores or features, keep the CRAM
   * flags, and change of the BAM flags only the two that describe the mate.
   */
  lemma FieldsKeep(x: Context, prev: Option<Position>, record: Record, bamFlags: bv16, flags: bv8, s: Streams)
    requires Supported(x.header) && record.bamBitFlags == bamFlags
    ensures var (r, _) := FieldsSpec(x, prev, record, bamFlags, flags, s);
      r.Ok? ==> KeepsRead(record, r.value, bamFlags)
  {
    PositionalDataKeeps(x, prev, record, s);
    var (r1, s1) := PositionalDataSpec(x, prev, record, s);
    if r1.Ok? {
      NamesAndMateKeep(x, r1.value, bamFlags, flags, s1);
    }
  }

  /**
   * A record that is read holds, when unmapped, exactly its read length of bases and no features,
   * and when mapped no bases; it holds its read length of scores exactly when its CRAM flags say
   * scores are stored as an array, and none otherwise.
   */
  lemma RecordShape(x: Context, prev: Option<Position>, s: Streams)
    requires Supported(x.header)
    ensures var (r, _) := RecordSpec(x, prev, s);
      r.Ok? ==>
        && (HasBamFlag(r.value.bamBitFlags, BamUnmapped) ==>
              |r.value.bases| == r.value.readLength && r.value.features == [] && AllValid(x.with, BA, r.value.bases))
        && (!HasBamFlag(r.value.bamBitFlags, BamUnmapped) ==> r.value.bases == [])
        && |r.value.qualityScores| == (if HasCramFlag(r.value.cramBitFlags, CramScoresStoredAsArray) then r.value.readLength else 0)
  {
    var (bamFlags, s1) := BamBitFlagsSpec(x, s);
    if bamFlags.Err? { return; }
    var (flags, s2) := CramBitFlagsSpec(x, s1);
    if flags.Err? { return; }
    var start := NewRecord(bamFlags.value, flags.value);
    FieldsKeep(x, prev, start, bamFlags.value, flags.value, s2);
    var (record, s3) := FieldsSpec(x, prev, start, bamFlags.value, flags.value, s2);
    if record.Err? { return; }
    var rec := record.value;
    MaskKeepsUnmapped(rec.bamBitFlags, bamFlags.value);
    var (tags, s4) := TagDataSpec(x, s3);
    if tags.Err? { return; }
    var tagged := rec.(tags := tags.value);
    if HasBamFlag(bamFlags.value, BamUnmapped) {
      UnmappedReadShape(x, tagged, flags.value, rec.readLength, s4);
      var (r, _) := UnmappedReadSpec(x, tagged, flags.value, rec.readLength, s4);
      if r.Ok? {
        assert r.value.bases[|tagged.bases|..] == r.value.bases;
      }
    } else {
      MappedReadShape(x, tagged, flags.value, rec.readLength, s4);
    }
  }
}
