/**
 * Writing the genotype columns of a VCF data line: the FORMAT keys joined by ':', then one
 * tab-prefixed column per sample holding that sample's values joined by ':'. Array values
 * are joined by ','; a missing value or array element is written as ".".
 */
module VcfGenotypesWriter {
  import opened Wrappers
  import RustNum

  const Missing: string := "."

  /** A genotype field value. A float is kept as its f32 bits and rendered by `showFloat`. */
  datatype Value =
    | Integer(n: int)
    | Float(bits: nat)
    | Character(c: char)
    | String(s: string)
    | IntegerArray(ns: seq<Option<int>>)
    | FloatArray(fs: seq<Option<nat>>)
    | CharacterArray(cs: seq<Option<char>>)
    | StringArray(ss: seq<Option<string>>)

  /** The items with `sep` between neighbours and none before the first or after the last. */
  function Join(items: seq<string>, sep: char): string
  {
    if |items| == 0 then ""
    else if |items| == 1 then items[0]
    else Join(items[..|items| - 1], sep) + [sep] + items[|items| - 1]
  }

  /**
   * One step of a joining loop: with the items before `i` already written after `dst`, writing
   * `sep` (unless `i` is 0) and then item `i` leaves the items up to `i` written.
   */
  lemma JoinStep(dst: string, items: seq<string>, sep: char, i: nat, before: string, after: string)
    requires i < |items| && before == dst + Join(items[..i], sep)
    requires after == (if i > 0 then before + [sep] else before) + items[i]
    ensures after == dst + Join(items[..i + 1], sep)
  {
    assert items[..i + 1][..i] == items[..i];
  }

  /** Cutting a text at every `sep`: the reading side of `Join`. */
  function Split(s: string, sep: char): (r: seq<string>)
    ensures |r| > 0
  {
    if s == [] then [""]
    else if s[0] == sep then [""] + Split(s[1..], sep)
    else
      var parts := Split(s[1..], sep);
      [[s[0]] + parts[0]] + parts[1..]
  }

  predicate Free(items: seq<string>, sep: char)
  {
    forall i :: 0 <= i < |items| ==> sep !in items[i]
  }

  /** `Join` seen from the front: the first item, then `sep`, then the others joined. */
  lemma {:induction false} JoinCons(items: seq<string>, sep: char)
    requires |items| >= 2
    ensures Join(items, sep) == items[0] + [sep] + Join(items[1..], sep)
    decreases |items|
  {
    var n := |items|;
    if n > 2 {
      JoinCons(items[..n - 1], sep);
      assert items[..n - 1][1..] == items[1..][..n - 2];
      assert items[..n - 1][0] == items[0];
      assert items[1..][n - 2] == items[n - 1];
    } else {
      assert items[1..] == [items[1]];
    }
  }

  /** Text without `sep`, followed by `sep` and more, splits into that text and the rest's parts. */
  lemma {:induction false} SplitPrefix(a: string, sep: char, b: string)
    requires sep !in a
    ensures Split(a + [sep] + b, sep) == [a] + Split(b, sep)
  {
    if a == [] {
      assert a + [sep] + b == [sep] + b;
      assert ([sep] + b)[1..] == b;
    } else {
      assert (a + [sep] + b)[1..] == a[1..] + [sep] + b;
      assert sep !in a[1..];
      SplitPrefix(a[1..], sep, b);
      assert [a[0]] + a[1..] == a;
    }
  }

  lemma {:induction false} SplitFree(a: string, sep: char)
    requires sep !in a
    ensures Split(a, sep) == [a]
  {
    if a != [] {
      assert sep !in a[1..];
      SplitFree(a[1..], sep);
      assert [a[0]] + a[1..] == a;
    }
  }

  /**
   * When no item holds the separator, cutting the joined text at the separator gives the
   * items back: the ':' and ',' separators written here are unambiguous.
   */
  lemma {:induction false} SplitJoin(items: seq<string>, sep: char)
    requires |items| > 0 && Free(items, sep)
    ensures Split(Join(items, sep), sep) == items
    decreases |items|
  {
    if |items| == 1 {
      SplitFree(items[0], sep);
    } else {
      JoinCons(items, sep);
      SplitPrefix(items[0], sep, Join(items[1..], sep));
      SplitJoin(items[1..], sep);
      assert [items[0]] + items[1..] == items;
    }
  }

  /** The text of one value; floats are rendered by `showFloat`. */
  function ValueText(v: Value, showFloat: nat -> string): string
  {
    match v
    case Integer(n) => RustNum.IntToString(n)
    case Float(bits) => showFloat(bits)
    case Character(c) => [c]
    case String(s) => s
    case IntegerArray(ns) =>
      Join(seq(|ns|, i requires 0 <= i < |ns| => if ns[i].Some? then RustNum.IntToString(ns[i].value) else Missing), ',')
    case FloatArray(fs) =>
      Join(seq(|fs|, i requires 0 <= i < |fs| => if fs[i].Some? then showFloat(fs[i].value) else Missing), ',')
    case CharacterArray(cs) =>
      Join(seq(|cs|, i requires 0 <= i < |cs| => if cs[i].Some? then [cs[i].value] else Missing), ',')
    case StringArray(ss) =>
      Join(seq(|ss|, i requires 0 <= i < |ss| => if ss[i].Some? then ss[i].value else Missing), ',')
  }

  /** The text of a sample's field: its value, or "." when the value is missing. */
  function FieldText(v: Option<Value>, showFloat: nat -> string): string
  {
    if v.Some? then ValueText(v.value, showFloat) else Missing
  }

  /** The text of one sample column: its fields joined by ':'. */
  function SampleText(values: seq<Option<Value>>, showFloat: nat -> string): string
  {
    Join(seq(|values|, i requires 0 <= i < |values| => FieldText(values[i], showFloat)), ':')
  }

  /** The genotype columns: the keys joined by ':', then each sample after a tab. */
  function GenotypesText(keys: seq<string>, samples: seq<seq<Option<Value>>>, showFloat: nat -> string): string
  {
    if samples == [] then Join(keys, ':')
    else
      GenotypesText(keys, samples[..|samples| - 1], showFloat) + "\t"
        + SampleText(samples[|samples| - 1], showFloat)
  }

  /**
   * Appends the items with `sep` between each two: `write_keys` with ':' and the array
   * values of `write_value` with ','.
   */
  method WriteJoined(dst: string, items: seq<string>, sep: char) returns (out: string)
    ensures out == dst + Join(items, sep)
  {
    out := dst;
    for i := 0 to |items|
      invariant out == dst + Join(items[..i], sep)
    {
      ghost var before := out;
      if i > 0 {
        out := out + [sep];
      }
      out := out + items[i];
      JoinStep(dst, items, sep, i, before, out);
    }
    assert items[..|items|] == items;
  }

  /** `write_value`: appends the text of one value. */
  method WriteValue(dst: string, v: Value, showFloat: nat -> string) returns (out: string)
    ensures out == dst + ValueText(v, showFloat)
  {
    match v
    case Integer(n) => out := dst + RustNum.IntToString(n);
    case Float(bits) => out := dst + showFloat(bits);
    case Character(c) => out := dst + [c];
    case String(s) => out := dst + s;
    case IntegerArray(ns) =>
      out := WriteJoined(dst, seq(|ns|, i requires 0 <= i < |ns| =>
        if ns[i].Some? then RustNum.IntToString(ns[i].value) else Missing), ',');
    case FloatArray(fs) =>
      out := WriteJoined(dst, seq(|fs|, i requires 0 <= i < |fs| =>
        if fs[i].Some? then showFloat(fs[i].value) else Missing), ',');
    case CharacterArray(cs) =>
      out := WriteJoined(dst, seq(|cs|, i requires 0 <= i < |cs| =>
        if cs[i].Some? then [cs[i].value] else Missing), ',');
    case StringArray(ss) =>
      out := WriteJoined(dst, seq(|ss|, i requires 0 <= i < |ss| =>
        if ss[i].Some? then ss[i].value else Missing), ',');
  }

  /** One field of `write_values`: its value, or "." when it has none. */
  method WriteField(dst: string, value: Option<Value>, showFloat: nat -> string) returns (out: string)
    ensures out == dst + FieldText(value, showFloat)
  {
    match value {
      case Some(v) => out := WriteValue(dst, v, showFloat);
      case None => out := dst + Missing;
    }
  }

  /** `write_values`: appends one sample's fields joined by ':', a missing one as ".". */
  method WriteValues(dst: string, values: seq<Option<Value>>, showFloat: nat -> string) returns (out: string)
    ensures out == dst + SampleText(values, showFloat)
  {
    ghost var texts := seq(|values|, i requires 0 <= i < |values| => FieldText(values[i], showFloat));
    out := dst;
    for i := 0 to |values|
      invariant out == dst + Join(texts[..i], ':')
    {
      ghost var before := out;
      if i > 0 {
        out := out + ":";
      }
      out := WriteField(out, values[i], showFloat);
      JoinStep(dst, texts, ':', i, before, out);
    }
    assert texts[..|values|] == texts;
  }

  /** `write_genotypes`: appends the keys, then each sample's column after a tab. */
  method WriteGenotypes(dst: string, keys: seq<string>, samples: seq<seq<Option<Value>>>, showFloat: nat -> string)
    returns (out: string)
    ensures out == dst + GenotypesText(keys, samples, showFloat)
  {
    out := WriteJoined(dst, keys, ':');
    for i := 0 to |samples|
      invariant out == dst + GenotypesText(keys, samples[..i], showFloat)
    {
      out := out + "\t";
      out := WriteValues(out, samples[i], showFloat);
      assert samples[..i + 1][..i] == samples[..i];
    }
    assert samples[..|samples|] == samples;
  }

  /**
   * The genotype columns read back: cut at tabs, the first column is the keys' text and
   * column k + 1 is sample k's text.
   */
  lemma {:induction false} GenotypesColumns(keys: seq<string>, samples: seq<seq<Option<Value>>>, showFloat: nat -> string)
    requires '\t' !in Join(keys, ':')
    requires forall k :: 0 <= k < |samples| ==> '\t' !in SampleText(samples[k], showFloat)
    ensures Split(GenotypesText(keys, samples, showFloat), '\t')
      == [Join(keys, ':')] + seq(|samples|, k requires 0 <= k < |samples| => SampleText(samples[k], showFloat))
  {
    var cols := Columns(keys, samples, showFloat);
    GenotypesJoin(keys, samples, showFloat);
    assert Free(cols, '\t') by {
      forall i | 0 <= i < |cols|
        ensures '\t' !in cols[i]
      {
        if i > 0 {
          assert cols[i] == SampleText(samples[i - 1], showFloat);
        }
      }
    }
    SplitJoin(cols, '\t');
  }

  /** The genotype columns: the keys' text, then one text per sample. */
  function Columns(keys: seq<string>, samples: seq<seq<Option<Value>>>, showFloat: nat -> string): (cols: seq<string>)
    ensures |cols| == |samples| + 1 && cols[0] == Join(keys, ':')
    ensures forall k :: 0 <= k < |samples| ==> cols[k + 1] == SampleText(samples[k], showFloat)
  {
    [Join(keys, ':')] + seq(|samples|, k requires 0 <= k < |samples| => SampleText(samples[k], showFloat))
  }

  /** The genotype columns are the keys' text and the samples' texts joined by tabs. */
  lemma {:induction false} GenotypesJoin(keys: seq<string>, samples: seq<seq<Option<Value>>>, showFloat: nat -> string)
    ensures GenotypesText(keys, samples, showFloat) == Join(Columns(keys, samples, showFloat), '\t')
    decreases |samples|
  {
    var cols := Columns(keys, samples, showFloat);
    if samples == [] {
      assert cols == [Join(keys, ':')];
    } else {
      var n := |samples|;
      GenotypesJoin(keys, samples[..n - 1], showFloat);
      var prev := Columns(keys, samples[..n - 1], showFloat);
      assert cols[..n] == prev by {
        forall k | 0 <= k < n
          ensures cols[k] == prev[k]
        {
          if k > 0 {
            assert samples[..n - 1][k - 1] == samples[k - 1];
          }
        }
      }
      assert Join(cols, '\t') == Join(prev, '\t') + "\t" + cols[n];
    }
  }

  lemma IntegerTexts()
    ensures RustNum.IntToString(13) == "13" && RustNum.IntToString(8) == "8"
  {
    assert RustNum.NatToString(13) == "13";
    assert RustNum.NatToString(8) == "8";
  }

  /** One sample with a genotype: "GT\t0|0". */
  lemma GenotypesExampleOne(showFloat: nat -> string)
    ensures GenotypesText(["GT"], [[Some(String("0|0"))]], showFloat) == "GT\t0|0"
  {
    var s0: seq<Option<Value>> := [Some(String("0|0"))];
    assert SampleText(s0, showFloat) == "0|0" by {
      var t := seq(|s0|, i requires 0 <= i < |s0| => FieldText(s0[i], showFloat));
      assert t == ["0|0"];
    }
    assert |[s0][..0]| == 0;
  }

  lemma SampleTextPair(a: Option<Value>, b: Option<Value>, showFloat: nat -> string)
    ensures SampleText([a, b], showFloat) == FieldText(a, showFloat) + ":" + FieldText(b, showFloat)
  {
    var values := [a, b];
    var t := seq(|values|, i requires 0 <= i < |values| => FieldText(values[i], showFloat));
    assert t == [FieldText(a, showFloat), FieldText(b, showFloat)];
    assert t[..1] == [t[0]];
    assert Join(t, ':') == t[0] + ":" + t[1];
    assert SampleText(values, showFloat) == Join(t, ':');
  }

  /** Two samples with two keys: "GT:GQ\t0|0:13\t0/1:8". */
  lemma GenotypesExampleTwo(showFloat: nat -> string)
    ensures GenotypesText(["GT", "GQ"],
      [[Some(String("0|0")), Some(Integer(13))], [Some(String("0/1")), Some(Integer(8))]], showFloat)
      == "GT:GQ\t0|0:13\t0/1:8"
  {
    IntegerTexts();
    var s1: seq<Option<Value>> := [Some(String("0|0")), Some(Integer(13))];
    var s2: seq<Option<Value>> := [Some(String("0/1")), Some(Integer(8))];
    SampleTextPair(s1[0], s1[1], showFloat);
    SampleTextPair(s2[0], s2[1], showFloat);
    assert FieldText(s1[1], showFloat) == "13" && FieldText(s2[1], showFloat) == "8";
    assert [s1, s2][..1] == [s1];
    assert |[s1, s2][..1][..0]| == 0;
    assert ["GT", "GQ"][..1] == ["GT"];
  }

  /** Array values: elements joined by ',', a missing element written as ".". */
  lemma ValueExamples(showFloat: nat -> string)
    ensures ValueText(IntegerArray([Some(8), None]), showFloat) == "8,."
    ensures ValueText(CharacterArray([Some('n'), Some('d')]), showFloat) == "n,d"
    ensures ValueText(StringArray([Some("noodles"), None]), showFloat) == "noodles,."
    ensures FieldText(None, showFloat) == "."
  {
    IntegerTexts();
    var ns: seq<Option<int>> := [Some(8), None];
    var t := seq(|ns|, i requires 0 <= i < |ns| => if ns[i].Some? then RustNum.IntToString(ns[i].value) else Missing);
    assert t == ["8", "."];
    assert t[..1] == ["8"];
    assert Join(t, ',') == "8" + "," + ".";
    assert ValueText(IntegerArray(ns), showFloat) == Join(t, ',');
    var cs: seq<Option<char>> := [Some('n'), Some('d')];
    var u := seq(|cs|, i requires 0 <= i < |cs| => if cs[i].Some? then [cs[i].value] else Missing);
    assert u == ["n", "d"];
    assert u[..1] == ["n"];
    assert Join(u, ',') == "n" + "," + "d";
    assert ValueText(CharacterArray(cs), showFloat) == Join(u, ',');
    var ss: seq<Option<string>> := [Some("noodles"), None];
    var w := seq(|ss|, i requires 0 <= i < |ss| => if ss[i].Some? then ss[i].value else Missing);
    assert w == ["noodles", "."];
    assert w[..1] == ["noodles"];
    assert Join(w, ',') == "noodles" + "," + ".";
    assert ValueText(StringArray(ss), showFloat) == Join(w, ',');
  }
}
