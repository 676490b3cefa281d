/**
 * The order-0 decoder of the rANS 4x8 codec (section 2 of the CRAM codecs specification): the
 * run-length compressed frequency table, the cumulative frequencies, the 4096-slot table from a
 * cumulative frequency to its symbol, and the four interleaved rANS states that produce the output.
 *
 * The ITF-8 reader and the three rANS state operations (`rans_get_cumulative_freq`,
 * `rans_advance_step`, `rans_renorm`) are not part of this model; they are passed in. The input
 * stream is the sequence of bytes not yet read, and each reader returns what it leaves.
 */
module RansOrder0Decode {
  import opened Wrappers
  import opened RustNum

  /** The `io::ErrorKind`s the collaborators and the byte reads report. */
  datatype ErrorKind = UnexpectedEof | InvalidData

  /** An index into the 4096-slot table. */
  type Slot = n: int | 0 <= n < 4096

  /** A value read as ITF-8 (an `i32`) and the number of bytes it took. */
  datatype Itf8 = Itf8(value: int, length: nat)

  datatype Collaborators = Collaborators(
    readItf8: seq<Byte> -> Result<Itf8, ErrorKind>,
    cumulativeFreq: U32 -> Slot,
    advanceStep: (U32, U32, U32) -> U32,
    renorm: (seq<Byte>, U32) -> Result<(U32, seq<Byte>), ErrorKind>)

  /** The ITF-8 reader never reads past the bytes it is given. */
  ghost predicate ReadsWithin(c: Collaborators)
  {
    forall s: seq<Byte> :: c.readItf8(s).Ok? ==> c.readItf8(s).value.length <= |s|
  }

  /** `as u32` of an `i32`: the value modulo 2^32. */
  function ToU32(v: int): U32
  {
    v % 0x1_0000_0000
  }

  /** The outcome of reading the frequency table: the rest of the input or an error, and the frequencies. */
  datatype FreqRead = FreqRead(result: Result<seq<Byte>, ErrorKind>, freqs: seq<U32>)

  /**
   * The loop of `read_frequencies_0` at symbol `sym` with `rle` symbols still implied: the
   * frequency of `sym` is read and stored; an implied symbol is the next one up (a `u8` that wraps
   * to 0), otherwise the next symbol is read, and a symbol one above the previous one is followed
   * by the count of symbols it implies. The loop ends when the next symbol is 0.
   */
  function FrequencyLoop(input: seq<Byte>, sym: Byte, rle: Byte, freqs: seq<U32>, c: Collaborators): (r: FreqRead)
    requires |freqs| == 256 && ReadsWithin(c)
    ensures |r.freqs| == 256
    decreases |input|, rle
  {
    match c.readItf8(input)
    case Err(e) => FreqRead(Err(e), freqs)
    case Ok(v) =>
      var updated := freqs[sym := ToU32(v.value)];
      var rest := input[v.length..];
      if rle > 0 then
        var next := (sym + 1) % 0x100;
        if next == 0 then FreqRead(Ok(rest), updated)
        else FrequencyLoop(rest, next, rle - 1, updated, c)
      else if |rest| == 0 then FreqRead(Err(UnexpectedEof), updated)
      else
        var next := rest[0];
        if sym < 255 && next == sym + 1 then
          if |rest| < 2 then FreqRead(Err(UnexpectedEof), updated)
          else FrequencyLoop(rest[2..], next, rest[1], updated, c)
        else if next == 0 then FreqRead(Ok(rest[1..]), updated)
        else FrequencyLoop(rest[1..], next, 0, updated, c)
  }

  /** `read_frequencies_0`'s table: the first symbol, then the loop. */
  function ReadFrequencies(input: seq<Byte>, freqs: seq<U32>, c: Collaborators): (r: FreqRead)
    requires |freqs| == 256 && ReadsWithin(c)
    ensures |r.freqs| == 256
  {
    if |input| == 0 then FreqRead(Err(UnexpectedEof), freqs)
    else FrequencyLoop(input[1..], input[0], 0, freqs, c)
  }

  /** The first `n + 1` cumulative frequencies; the additions wrap as `u32`. */
  function CumulativePrefix(f: seq<U32>, n: nat): (c: seq<U32>)
    requires |f| == 256 && n <= 255
    ensures |c| == n + 1 && c[0] == 0
    ensures forall i :: 0 <= i < n ==> c[i + 1] == (c[i] as int + f[i]) % 0x1_0000_0000
  {
    if n == 0 then [0]
    else
      var p := CumulativePrefix(f, n - 1);
      p + [(p[n - 1] as int + f[n - 1]) % 0x1_0000_0000]
  }

  /** The cumulative frequencies: 0, then each entry the previous one plus the previous frequency. */
  function CumulativeFreqs(f: seq<U32>): (c: seq<U32>)
    requires |f| == 256
    ensures |c| == 256 && c[0] == 0
    ensures forall i :: 0 <= i < 255 ==> c[i + 1] == (c[i] as int + f[i]) % 0x1_0000_0000
  {
    CumulativePrefix(f, 255)
  }

  method ReadFrequencies0(input: seq<Byte>, freqs: array<U32>, cumulative: array<U32>, c: Collaborators)
    returns (r: Result<seq<Byte>, ErrorKind>)
    requires freqs.Length == 256 && cumulative.Length == 256 && freqs != cumulative && ReadsWithin(c)
    modifies freqs, cumulative
    ensures var d := ReadFrequencies(input, old(freqs[..]), c);
      r == d.result && freqs[..] == d.freqs
    ensures r.Ok? ==> cumulative[..] == CumulativeFreqs(freqs[..])
    ensures r.Err? ==> cumulative[..] == old(cumulative[..])
  {
    if |input| == 0 {
      return Err(UnexpectedEof);
    }
    var sym: Byte := input[0];
    var rest := input[1..];
    var rle: Byte := 0;
    while true
      invariant FrequencyLoop(rest, sym, rle, freqs[..], c) == ReadFrequencies(input, old(freqs[..]), c)
      invariant cumulative[..] == old(cumulative[..])
      decreases |rest|, rle
    {
      var v := c.readItf8(rest);
      if v.Err? {
        return Err(v.error);
      }
      freqs[sym] := ToU32(v.value.value);
      rest := rest[v.value.length..];
      if rle > 0 {
        rle := rle - 1;
        sym := (sym + 1) % 0x100;
      } else {
        if |rest| == 0 {
          return Err(UnexpectedEof);
        }
        var next := rest[0];
        rest := rest[1..];
        if sym < 255 && next == sym + 1 {
          if |rest| == 0 {
            return Err(UnexpectedEof);
          }
          rle := rest[0];
          rest := rest[1..];
        }
        sym := next;
      }
      if sym == 0 {
        break;
      }
    }
    FillCumulative(freqs, cumulative);
    return Ok(rest);
  }

  /** The tail of `read_frequencies_0`: the cumulative frequencies of the table just read. */
  method FillCumulative(freqs: array<U32>, cumulative: array<U32>)
    requires freqs.Length == 256 && cumulative.Length == 256 && freqs != cumulative
    modifies cumulative
    ensures cumulative[..] == CumulativeFreqs(freqs[..])
  {
    cumulative[0] := 0;
    for i := 0 to 255
      invariant cumulative[0] == 0
      invariant forall k :: 0 <= k < i ==> cumulative[k + 1] == (cumulative[k] as int + freqs[k]) % 0x1_0000_0000
    {
      cumulative[i + 1] := (cumulative[i] as int + freqs[i]) % 0x1_0000_0000;
    }
    CumulativeUnique(freqs[..], cumulative[..]);
  }

  /** The recurrence determines the cumulative frequencies. */
  lemma CumulativeUnique(f: seq<U32>, c: seq<U32>)
    requires |f| == 256 && |c| == 256 && c[0] == 0
    requires forall i :: 0 <= i < 255 ==> c[i + 1] == (c[i] as int + f[i]) % 0x1_0000_0000
    ensures c == CumulativeFreqs(f)
  {
    var d := CumulativeFreqs(f);
    forall i | 0 <= i < 256
      ensures c[i] == d[i]
    {
      CumulativeUniqueAt(f, c, d, i);
    }
  }

  lemma {:induction false} CumulativeUniqueAt(f: seq<U32>, c: seq<U32>, d: seq<U32>, i: nat)
    requires |f| == 256 && |c| == 256 && |d| == 256 && c[0] == 0 && d[0] == 0 && i < 256
    requires forall k :: 0 <= k < 255 ==> c[k + 1] == (c[k] as int + f[k]) % 0x1_0000_0000
    requires forall k :: 0 <= k < 255 ==> d[k + 1] == (d[k] as int + f[k]) % 0x1_0000_0000
    ensures c[i] == d[i]
  {
    if i > 0 {
      CumulativeUniqueAt(f, c, d, i - 1);
    }
  }

  /** The sum of the frequencies. */
  function Sum(f: seq<U32>): nat
  {
    if f == [] then 0 else Sum(f[..|f| - 1]) + f[|f| - 1]
  }

  /** Non-decreasing values. */
  ghost predicate NonDecreasing(c: seq<U32>)
  {
    forall i, j :: 0 <= i <= j < |c| ==> c[i] <= c[j]
  }

  /**
   * When the frequencies (all but the last) add up to less than 2^32, no addition wraps: each
   * cumulative frequency is the sum of the frequencies below it, and they never decrease.
   */
  lemma CumulativeIsSum(f: seq<U32>)
    requires |f| == 256 && Sum(f[..255]) < 0x1_0000_0000
    ensures forall i :: 0 <= i < 256 ==> CumulativeFreqs(f)[i] == Sum(f[..i])
    ensures NonDecreasing(CumulativeFreqs(f))
  {
    var c := CumulativeFreqs(f);
    forall i | 0 <= i < 256
      ensures c[i] == Sum(f[..i])
    {
      CumulativeIsSumAt(f, i);
    }
    forall i, j | 0 <= i <= j < 256
      ensures c[i] <= c[j]
    {
      SumMonotone(f[..j], i);
      assert f[..j][..i] == f[..i];
    }
  }

  lemma {:induction false} CumulativeIsSumAt(f: seq<U32>, i: nat)
    requires |f| == 256 && Sum(f[..255]) < 0x1_0000_0000 && i < 256
    ensures CumulativeFreqs(f)[i] == Sum(f[..i])
  {
    if i > 0 {
      CumulativeIsSumAt(f, i - 1);
      assert f[..i][..i - 1] == f[..i - 1];
      SumMonotone(f[..255], i);
      assert f[..255][..i] == f[..i];
    }
  }

  lemma {:induction false} SumMonotone(f: seq<U32>, i: nat)
    requires i <= |f|
    ensures Sum(f[..i]) <= Sum(f)
    decreases |f|
  {
    if i < |f| {
      SumMonotone(f[..|f| - 1], i);
      assert f[..|f| - 1][..i] == f[..i];
    } else {
      assert f[..i] == f;
    }
  }

  /** The inner loop of the table build: move up while the next cumulative frequency is still at most `f`. */
  function Advance(c: seq<U32>, f: nat, s: nat): (t: nat)
    requires |c| == 256 && s <= 255
    ensures s <= t <= 255
    decreases 255 - s
  {
    if s < 255 && f >= c[s + 1] then Advance(c, f, s + 1) else s
  }

  /** The symbol the table holds at slot `f`: the scan goes on from the previous slot's symbol. */
  function TableSymbol(c: seq<U32>, f: nat): (s: nat)
    requires |c| == 256
    ensures s <= 255
  {
    Advance(c, f, if f == 0 then 0 else TableSymbol(c, f - 1))
  }

  /** The inner loop of `build_cumulative_freqs_symbols_table`: the scan from `sym` for slot `f`. */
  method AdvanceSymbol(c: array<U32>, f: nat, sym: nat) returns (t: nat)
    requires c.Length == 256 && sym <= 255
    ensures t == Advance(c[..], f, sym)
  {
    t := sym;
    while t < 255 && f >= c[t + 1]
      invariant sym <= t <= 255
      invariant Advance(c[..], f, t) == Advance(c[..], f, sym)
      decreases 255 - t
    {
      t := t + 1;
    }
  }

  /** `build_cumulative_freqs_symbols_table`: slot `f` holds the symbol the scan has reached at `f`. */
  method BuildTable(c: array<U32>) returns (table: array<Byte>)
    requires c.Length == 256
    ensures fresh(table) && table.Length == 4096
    ensures table[..] == TableOf(c[..])
  {
    table := new Byte[4096];
    ghost var cs := c[..];
    var sym := 0;
    for f := 0 to 4096
      invariant sym <= 255
      invariant f > 0 ==> sym == TableSymbol(cs, f - 1)
      invariant f == 0 ==> sym == 0
      invariant table[..f] == seq(f, k requires 0 <= k < f => TableSymbol(cs, k))
    {
      sym := AdvanceSymbol(c, f, sym);
      table[f] := sym;
    }
  }

  lemma {:induction false} AdvanceBrackets(c: seq<U32>, f: nat, s: nat)
    requires |c| == 256 && s <= 255 && c[s] <= f
    ensures var t := Advance(c, f, s); c[t] <= f && (t < 255 ==> f < c[t + 1])
    decreases 255 - s
  {
    if s < 255 && f >= c[s + 1] {
      AdvanceBrackets(c, f, s + 1);
    }
  }

  /**
   * Each slot's symbol brackets the slot: its cumulative frequency is at most `f` and, below the
   * last symbol, the next one is above `f`; and the symbols never decrease from slot to slot.
   */
  lemma {:induction false} TableBrackets(c: seq<U32>, f: nat)
    requires |c| == 256 && c[0] == 0
    ensures var t := TableSymbol(c, f); c[t] <= f && (t < 255 ==> f < c[t + 1])
    ensures f > 0 ==> TableSymbol(c, f - 1) <= TableSymbol(c, f)
  {
    if f == 0 {
      AdvanceBrackets(c, f, 0);
    } else {
      TableBrackets(c, f - 1);
      AdvanceBrackets(c, f, TableSymbol(c, f - 1));
    }
  }

  /**
   * With non-decreasing cumulative frequencies, the table inverts them: a slot in symbol `s`'s
   * range [c[s], c[s + 1]) holds `s`.
   */
  lemma TableFindsSymbol(c: seq<U32>, s: nat, f: nat)
    requires |c| == 256 && c[0] == 0 && NonDecreasing(c) && s <= 255
    requires c[s] <= f && (s < 255 ==> f < c[s + 1])
    ensures TableSymbol(c, f) == s
  {
    TableBrackets(c, f);
  }

  /** The outcome of decoding: the rest of the input or an error, and the bytes written. */
  datatype Decoded = Decoded(result: Result<seq<Byte>, ErrorKind>, output: seq<Byte>)

  /**
   * The loops of `decode` from round `i` (output bytes `i` to `i + 3`) at lane `j`: output byte
   * `i + j` is the symbol of state `j`'s slot, written before the state advances and renormalises,
   * reading from the input. Decoding stops at `n` bytes.
   */
  function DecodeFrom(i: nat, j: nat, n: nat, states: seq<U32>, input: seq<Byte>, freqs: seq<U32>,
                      cumulative: seq<U32>, table: seq<Byte>, c: Collaborators): (d: Decoded)
    requires j <= 4 && i + j <= n
    requires |states| == 4 && |freqs| == 256 && |cumulative| == 256 && |table| == 4096
    ensures |d.output| <= n - (i + j)
    ensures d.result.Ok? ==> |d.output| == n - (i + j)
    decreases n - (i + j), if j == 4 then 1 else 0
  {
    if j == 4 then DecodeFrom(i + 4, 0, n, states, input, freqs, cumulative, table, c)
    else if i + j == n then Decoded(Ok(input), [])
    else
      var s := table[c.cumulativeFreq(states[j])];
      var advanced := c.advanceStep(states[j], cumulative[s], freqs[s]);
      match c.renorm(input, advanced)
      case Err(e) => Decoded(Err(e), [s])
      case Ok(renormed) =>
        var d := DecodeFrom(i, j + 1, n, states[j := renormed.0], renormed.1, freqs, cumulative, table, c);
        Decoded(d.result, [s] + d.output)
  }

  /** The frequencies before the table is read: all zero. */
  function Zeros(): (z: seq<U32>)
    ensures |z| == 256
  {
    seq(256, _ => 0)
  }

  /** The lookup table of the cumulative frequencies. */
  function TableOf(c: seq<U32>): seq<Byte>
    requires |c| == 256
  {
    seq(4096, f requires 0 <= f < 4096 => TableSymbol(c, f))
  }

  /** The four states: little-endian `u32`s. */
  function States(b: seq<Byte>): (s: seq<U32>)
    requires |b| == 16
    ensures |s| == 4
  {
    [LeU32(b[0], b[1], b[2], b[3]), LeU32(b[4], b[5], b[6], b[7]),
     LeU32(b[8], b[9], b[10], b[11]), LeU32(b[12], b[13], b[14], b[15])]
  }

  /** The four states from the 16 bytes after the frequency table, then the symbols. */
  function DecodeAfterTables(input: seq<Byte>, n: nat, freqs: seq<U32>, cumulative: seq<U32>, c: Collaborators): Decoded
    requires |input| >= 16 && |freqs| == 256 && |cumulative| == 256
  {
    DecodeFrom(0, 0, n, States(input[..16]), input[16..], freqs, cumulative, TableOf(cumulative), c)
  }

  /** `decode` into `n` bytes: the frequency table, the four states, then the symbols. */
  function DecodeSpec(input: seq<Byte>, n: nat, c: Collaborators): (d: Decoded)
    requires ReadsWithin(c)
    ensures |d.output| <= n
    ensures d.result.Ok? ==> |d.output| == n
  {
    var fr := ReadFrequencies(input, Zeros(), c);
    match fr.result
    case Err(e) => Decoded(Err(e), [])
    case Ok(afterFreqs) =>
      if |afterFreqs| < 16 then Decoded(Err(UnexpectedEof), [])
      else DecodeAfterTables(afterFreqs, n, fr.freqs, CumulativeFreqs(fr.freqs), c)
  }

  /** A frequency table that fails to read, or is followed by fewer than 16 bytes, ends `decode` with nothing written. */
  lemma DecodeSpecEarly(input: seq<Byte>, n: nat, c: Collaborators)
    requires ReadsWithin(c)
    ensures var fr := ReadFrequencies(input, Zeros(), c);
      && (fr.result.Err? ==> DecodeSpec(input, n, c) == Decoded(Err(fr.result.error), []))
      && (fr.result.Ok? && |fr.result.value| < 16 ==> DecodeSpec(input, n, c) == Decoded(Err(UnexpectedEof), []))
  {
  }

  /** After the frequency table, `decode` takes four states from the next 16 bytes and decodes with the tables. */
  lemma DecodeSpecTables(input: seq<Byte>, n: nat, c: Collaborators, rest: seq<Byte>, freqs: seq<U32>)
    requires ReadsWithin(c) && ReadFrequencies(input, Zeros(), c) == FreqRead(Ok(rest), freqs) && |rest| >= 16
    ensures DecodeSpec(input, n, c)
      == DecodeFrom(0, 0, n, States(rest[..16]), rest[16..], freqs, CumulativeFreqs(freqs), TableOf(CumulativeFreqs(freqs)), c)
  {
  }

  /**
   * The lanes of a round: from lane `j0`, the byte written at lane `j` is the symbol of state `j`
   * as it stood when the round started, since each lane renormalises only its own state.
   */
  lemma {:induction false} LaneSymbol(i: nat, j0: nat, j: nat, n: nat, states: seq<U32>, input: seq<Byte>,
                                       freqs: seq<U32>, cumulative: seq<U32>, table: seq<Byte>, c: Collaborators)
    requires j0 <= j < 4 && i + j < n
    requires |states| == 4 && |freqs| == 256 && |cumulative| == 256 && |table| == 4096
    ensures var d := DecodeFrom(i, j0, n, states, input, freqs, cumulative, table, c);
      |d.output| > j - j0 ==> d.output[j - j0] == table[c.cumulativeFreq(states[j])]
    decreases j - j0
  {
    var s := table[c.cumulativeFreq(states[j0])];
    var advanced := c.advanceStep(states[j0], cumulative[s], freqs[s]);
    if j0 < j {
      match c.renorm(input, advanced)
      case Err(_) =>
      case Ok(renormed) =>
        LaneSymbol(i, j0 + 1, j, n, states[j0 := renormed.0], renormed.1, freqs, cumulative, table, c);
    }
  }

  /**
   * Output byte `i + j` of a round that starts at `i` is produced by state `j`: the first four
   * bytes `decode` writes are the symbols of the four states read after the frequency table.
   */
  lemma FirstRound(input: seq<Byte>, n: nat, c: Collaborators, rest: seq<Byte>, freqs: seq<U32>, j: nat)
    requires ReadsWithin(c) && ReadFrequencies(input, Zeros(), c) == FreqRead(Ok(rest), freqs) && |rest| >= 16
    requires j < 4 && j < |DecodeSpec(input, n, c).output|
    ensures DecodeSpec(input, n, c).output[j]
      == TableOf(CumulativeFreqs(freqs))[c.cumulativeFreq(States(rest[..16])[j])]
  {
    DecodeSpecTables(input, n, c, rest, freqs);
    var cumulative := CumulativeFreqs(freqs);
    LaneSymbol(0, 0, j, n, States(rest[..16]), rest[16..], freqs, cumulative, TableOf(cumulative), c);
  }

  /** ITF-8 writes a value below 0x80 as that one byte. */
  ghost predicate SmallItf8(c: Collaborators)
  {
    forall b: Byte, rest: seq<Byte> :: b < 0x80 ==> c.readItf8([b] + rest) == Ok(Itf8(b, 1))
  }

  /** A frequency table without runs: the first symbol, then `LoopBytes`. */
  function TableBytes(entries: seq<(Byte, Byte)>): seq<Byte>
    requires entries != []
  {
    [entries[0].0] + LoopBytes(entries)
  }

  /** What the loop reads: each frequency, then the next entry's symbol or the terminating 0. */
  function LoopBytes(entries: seq<(Byte, Byte)>): seq<Byte>
    requires entries != []
    decreases |entries|
  {
    if |entries| == 1 then [entries[0].1, 0]
    else [entries[0].1, entries[1].0] + LoopBytes(entries[1..])
  }

  /** The frequencies after storing each entry's frequency at its symbol, in order. */
  function Stored(freqs: seq<U32>, entries: seq<(Byte, Byte)>): (r: seq<U32>)
    requires |freqs| == 256
    ensures |r| == 256
    decreases |entries|
  {
    if entries == [] then freqs else Stored(freqs[entries[0].0 := entries[0].1], entries[1..])
  }

  /**
   * Entries a table can list without runs: frequencies below 0x80, and each entry after the first
   * is `Plain` after the one before it.
   */
  ghost predicate PlainEntries(entries: seq<(Byte, Byte)>)
  {
    && (forall k :: 0 <= k < |entries| ==> entries[k].1 < 0x80)
    && (forall k :: 0 <= k < |entries| - 1 ==> Plain(entries[k], entries[k + 1]))
  }

  /** An entry after `prev` that neither ends the table nor starts a run. */
  ghost predicate Plain(prev: (Byte, Byte), next: (Byte, Byte))
  {
    next.0 != 0 && !(prev.0 < 255 && next.0 == prev.0 + 1)
  }

  /** One round of the loop: a one-byte frequency, then a symbol that neither ends the table nor starts a run. */
  lemma LoopPlainStep(f: Byte, next: Byte, after: seq<Byte>, sym: Byte, freqs: seq<U32>, c: Collaborators)
    requires ReadsWithin(c) && SmallItf8(c) && |freqs| == 256
    requires f < 0x80 && next != 0 && !(sym < 255 && next == sym + 1)
    ensures FrequencyLoop([f, next] + after, sym, 0, freqs, c) == FrequencyLoop(after, next, 0, freqs[sym := f], c)
  {
    var input := [f, next] + after;
    assert input == [f] + ([next] + after);
    assert input[1..] == [next] + after && input[1..][1..] == after;
    assert ToU32(f) == f;
  }

  /** The last round of the loop: a one-byte frequency, then the 0 that ends the table. */
  lemma LoopLastStep(f: Byte, rest: seq<Byte>, sym: Byte, freqs: seq<U32>, c: Collaborators)
    requires ReadsWithin(c) && SmallItf8(c) && |freqs| == 256 && f < 0x80
    ensures FrequencyLoop([f, 0] + rest, sym, 0, freqs, c) == FreqRead(Ok(rest), freqs[sym := f])
  {
    var input := [f, 0] + rest;
    assert input == [f] + ([0] + rest);
    assert input[1..] == [0] + rest && input[1..][1..] == rest;
    assert ToU32(f) == f;
  }

  lemma PlainTail(entries: seq<(Byte, Byte)>)
    requires entries != [] && PlainEntries(entries)
    ensures PlainEntries(entries[1..])
  {
    var tail := entries[1..];
    forall k | 0 <= k < |tail|
      ensures tail[k].1 < 0x80
    {
      assert tail[k] == entries[k + 1];
    }
    forall k | 0 <= k < |tail| - 1
      ensures Plain(tail[k], tail[k + 1])
    {
      assert tail[k] == entries[k + 1] && tail[k + 1] == entries[k + 1 + 1];
      assert Plain(entries[k + 1], entries[k + 1 + 1]);
    }
  }

  lemma {:induction false} LoopReadsEntries(entries: seq<(Byte, Byte)>, rest: seq<Byte>, freqs: seq<U32>, c: Collaborators)
    requires ReadsWithin(c) && SmallItf8(c) && |freqs| == 256
    requires entries != [] && PlainEntries(entries)
    ensures FrequencyLoop(LoopBytes(entries) + rest, entries[0].0, 0, freqs, c) == FreqRead(Ok(rest), Stored(freqs, entries))
    decreases |entries|
  {
    if |entries| == 1 {
      LoopLastStep(entries[0].1, rest, entries[0].0, freqs, c);
    } else {
      PlainTail(entries);
      assert Plain(entries[0], entries[0 + 1]);
      LoopReadsEntries(entries[1..], rest, freqs[entries[0].0 := entries[0].1], c);
      LoopReadsNext(entries, rest, freqs, c);
    }
  }

  /** The step of `LoopReadsEntries`: the first entry is read, then the loop goes on at the second. */
  lemma LoopReadsNext(entries: seq<(Byte, Byte)>, rest: seq<Byte>, freqs: seq<U32>, c: Collaborators)
    requires ReadsWithin(c) && SmallItf8(c) && |freqs| == 256
    requires |entries| > 1 && entries[0].1 < 0x80 && entries[1].0 != 0
    requires !(entries[0].0 < 255 && entries[1].0 == entries[0].0 + 1)
    requires var updated := freqs[entries[0].0 := entries[0].1];
      FrequencyLoop(LoopBytes(entries[1..]) + rest, entries[1].0, 0, updated, c) == FreqRead(Ok(rest), Stored(updated, entries[1..]))
    ensures FrequencyLoop(LoopBytes(entries) + rest, entries[0].0, 0, freqs, c) == FreqRead(Ok(rest), Stored(freqs, entries))
  {
    var head: seq<Byte> := [entries[0].1, entries[1].0];
    var after := LoopBytes(entries[1..]) + rest;
    assert LoopBytes(entries) == head + LoopBytes(entries[1..]);
    AppendAssoc(head, LoopBytes(entries[1..]), rest);
    LoopPlainStep(entries[0].1, entries[1].0, after, entries[0].0, freqs, c);
  }

  lemma AppendAssoc(a: seq<Byte>, b: seq<Byte>, c: seq<Byte>)
    ensures (a + b) + c == a + (b + c)
  {
  }

  /**
   * A table listed without runs reads back as its entries, each frequency stored at its symbol
   * (a later entry for the same symbol wins), and the reading stops after the terminating 0.
   */
  lemma ReadTableBytes(entries: seq<(Byte, Byte)>, rest: seq<Byte>, freqs: seq<U32>, c: Collaborators)
    requires ReadsWithin(c) && SmallItf8(c) && |freqs| == 256
    requires entries != [] && PlainEntries(entries)
    ensures ReadFrequencies(TableBytes(entries) + rest, freqs, c) == FreqRead(Ok(rest), Stored(freqs, entries))
  {
    var input := TableBytes(entries) + rest;
    assert input[0] == entries[0].0 && input[1..] == LoopBytes(entries) + rest;
    LoopReadsEntries(entries, rest, freqs, c);
  }

  /**
   * A run starts: after a one-byte frequency, a symbol one above the current one is followed by
   * the number of symbols it implies, and that count is read instead of a symbol byte.
   */
  lemma LoopRunStart(f: Byte, next: Byte, count: Byte, after: seq<Byte>, sym: Byte, freqs: seq<U32>, c: Collaborators)
    requires ReadsWithin(c) && SmallItf8(c) && |freqs| == 256
    requires f < 0x80 && sym < 255 && next == sym + 1
    ensures FrequencyLoop([f, next, count] + after, sym, 0, freqs, c) == FrequencyLoop(after, next, count, freqs[sym := f], c)
  {
    var input := [f, next, count] + after;
    assert input == [f] + ([next, count] + after);
    assert input[1..] == [next, count] + after && input[1..][2..] == after;
    assert ToU32(f) == f;
  }

  /** Inside a run: the frequency is read and the next symbol is implied, one above, without reading it. */
  lemma LoopImpliedStep(f: Byte, after: seq<Byte>, sym: Byte, rle: Byte, freqs: seq<U32>, c: Collaborators)
    requires ReadsWithin(c) && SmallItf8(c) && |freqs| == 256
    requires f < 0x80 && rle > 0 && sym < 255
    ensures FrequencyLoop([f] + after, sym, rle, freqs, c) == FrequencyLoop(after, sym + 1, rle - 1, freqs[sym := f], c)
  {
    var input := [f] + after;
    assert input[1..] == after;
    assert ToU32(f) == f;
  }

  /**
   * A run: after symbol 65 with frequency 10 comes 66, one above it, so the next byte (1) counts
   * the symbols implied after 66; 66 and the implied 67 take frequencies 20 and 30, and 0 ends
   * the table.
   */
  lemma RunExample(freqs: seq<U32>, c: Collaborators)
    requires ReadsWithin(c) && SmallItf8(c) && |freqs| == 256
    ensures ReadFrequencies([65, 10, 66, 1, 20, 30, 0], freqs, c)
      == FreqRead(Ok([]), freqs[65 := 10][66 := 20][67 := 30])
  {
    var input: seq<Byte> := [65, 10, 66, 1, 20, 30, 0];
    var f1 := freqs[65 := 10];
    var f2 := f1[66 := 20];
    calc {
      ReadFrequencies(input, freqs, c);
      FrequencyLoop(input[1..], 65, 0, freqs, c);
      { assert input[1..] == [10, 66, 1] + [20, 30, 0];
        LoopRunStart(10, 66, 1, [20, 30, 0], 65, freqs, c); }
      FrequencyLoop([20, 30, 0], 66, 1, f1, c);
      { assert [20, 30, 0] == [20] + [30, 0];
        LoopImpliedStep(20, [30, 0], 66, 1, f1, c); }
      FrequencyLoop([30, 0], 67, 0, f2, c);
      { assert [30, 0] == [30, 0] + [];
        LoopLastStep(30, [], 67, f2, c); }
      FreqRead(Ok([]), f2[67 := 30]);
    }
  }

  /** The bytes `w` already written, then what is left to decode. */
  function Prepend(w: seq<Byte>, d: Decoded): Decoded
  {
    Decoded(d.result, w + d.output)
  }

  /** The output starts with `w`, and the bytes after it are as they were before. */
  ghost predicate Written(out: seq<Byte>, before: seq<Byte>, w: seq<Byte>)
  {
    |out| == |before| && |w| <= |out| && out[..|w|] == w && out[|w|..] == before[|w|..]
  }

  /** Decoding has ended with `res` after `k` bytes were written in place of the first `k`. */
  lemma Finish(out: seq<Byte>, before: seq<Byte>, k: nat, res: Result<seq<Byte>, ErrorKind>, spec: Decoded)
    requires |out| == |before| && k <= |out|
    requires Prepend(out[..k], Decoded(res, [])) == spec
    requires forall m :: k <= m < |out| ==> out[m] == before[m]
    ensures spec.result == res && Written(out, before, spec.output)
  {
    assert out[..k] + [] == out[..k];
  }

  /**
   * `decode`: the frequency table, the four states, then the output, written from the front; the
   * outcome and the bytes written are those of `DecodeSpec`, and the other bytes are kept.
   */
  method Decode(input: seq<Byte>, output: array<Byte>, c: Collaborators) returns (r: Result<seq<Byte>, ErrorKind>)
    requires ReadsWithin(c)
    modifies output
    ensures var d := DecodeSpec(input, output.Length, c);
      r == d.result && Written(output[..], old(output[..]), d.output)
  {
    var afterFreqs, freqs, cumulative, table := ReadTables(input, c);
    DecodeSpecEarly(input, output.Length, c);
    if afterFreqs.Err? {
      Finish(output[..], old(output[..]), 0, Err(afterFreqs.error), DecodeSpec(input, output.Length, c));
      return Err(afterFreqs.error);
    }
    var rest := afterFreqs.value;
    if |rest| < 16 {
      Finish(output[..], old(output[..]), 0, Err(UnexpectedEof), DecodeSpec(input, output.Length, c));
      return Err(UnexpectedEof);
    }
    DecodeSpecTables(input, output.Length, c, rest, freqs);
    var state := ReadStates(rest[..16]);
    r := DecodeSymbols(rest[16..], output, state, freqs, cumulative, table, c);
  }

  /**
   * The tables of `decode`: the frequencies read into a zeroed table, their cumulative
   * frequencies, and the lookup table built from those.
   */
  method ReadTables(input: seq<Byte>, c: Collaborators)
    returns (r: Result<seq<Byte>, ErrorKind>, freqs: seq<U32>, cumulative: seq<U32>, table: seq<Byte>)
    requires ReadsWithin(c)
    ensures var fr := ReadFrequencies(input, Zeros(), c);
      && r == fr.result
      && (r.Ok? ==> freqs == fr.freqs && cumulative == CumulativeFreqs(freqs) && table == TableOf(cumulative))
  {
    var f := Zeroed();
    var cf := Zeroed();
    r := ReadFrequencies0(input, f, cf, c);
    if r.Err? {
      return r, [], [], [];
    }
    freqs, cumulative := f[..], cf[..];
    var t := BuildTable(cf);
    table := t[..];
  }

  /** `vec![0; 256]`. */
  method Zeroed() returns (a: array<U32>)
    ensures fresh(a) && a[..] == Zeros()
  {
    a := new U32[256](_ => 0);
  }

  /** `read_u32_into` of the four states: little-endian `u32`s. */
  method ReadStates(b: seq<Byte>) returns (state: array<U32>)
    requires |b| == 16
    ensures fresh(state) && state[..] == States(b)
  {
    state := new U32[4];
    state[0] := LeU32(b[0], b[1], b[2], b[3]);
    state[1] := LeU32(b[4], b[5], b[6], b[7]);
    state[2] := LeU32(b[8], b[9], b[10], b[11]);
    state[3] := LeU32(b[12], b[13], b[14], b[15]);
  }

  /** The outer loop of `decode`: a round of four bytes at a time. */
  method DecodeSymbols(input: seq<Byte>, output: array<Byte>, state: array<U32>, freqs: seq<U32>,
                       cumulative: seq<U32>, table: seq<Byte>, c: Collaborators)
    returns (r: Result<seq<Byte>, ErrorKind>)
    requires state.Length == 4 && |freqs| == 256 && |cumulative| == 256 && |table| == 4096
    modifies output, state
    ensures var d := DecodeFrom(0, 0, output.Length, old(state[..]), input, freqs, cumulative, table, c);
      r == d.result && Written(output[..], old(output[..]), d.output)
  {
    ghost var spec := DecodeFrom(0, 0, output.Length, state[..], input, freqs, cumulative, table, c);
    var rest := input;
    var i := 0;
    while i < output.Length
      invariant i <= output.Length
      invariant Prepend(output[..i], DecodeFrom(i, 0, output.Length, state[..], rest, freqs, cumulative, table, c)) == spec
      invariant forall m :: i <= m < output.Length ==> output[m] == old(output[m])
      decreases output.Length - i
    {
      ghost var before := output[..i];
      ghost var d0 := DecodeFrom(i, 0, output.Length, state[..], rest, freqs, cumulative, table, c);
      var done: bool;
      ghost var k: nat;
      r, done, k := DecodeRound(i, rest, output, state, freqs, cumulative, table, c);
      ghost var next := if r.Ok? && !done then DecodeFrom(i + 4, 0, output.Length, state[..], r.value, freqs, cumulative, table, c)
                        else Decoded(r, []);
      RoundWritten(before, output[..], k, d0, next, spec);
      if r.Err? || done {
        Finish(output[..], old(output[..]), k, r, spec);
        return;
      }
      rest := r.value;
      i := i + 4;
    }
    Finish(output[..], old(output[..]), i, Ok(rest), spec);
    return Ok(rest);
  }

  /**
   * The inner loop of `decode`: output bytes `i` to `i + 3` from states 0 to 3, in place of
   * bytes `i` to `k - 1`. `done` is set when the output is full before the round ends.
   */
  method DecodeRound(i: nat, input: seq<Byte>, output: array<Byte>, state: array<U32>, freqs: seq<U32>,
                     cumulative: seq<U32>, table: seq<Byte>, c: Collaborators)
    returns (r: Result<seq<Byte>, ErrorKind>, done: bool, ghost k: nat)
    requires i < output.Length
    requires state.Length == 4 && |freqs| == 256 && |cumulative| == 256 && |table| == 4096
    modifies output, state
    ensures i < k <= output.Length && k <= i + 4
    ensures r.Ok? && !done ==> k == i + 4
    ensures forall m :: 0 <= m < output.Length && !(i <= m < k) ==> output[m] == old(output[m])
    ensures DecodeFrom(i, 0, output.Length, old(state[..]), input, freqs, cumulative, table, c)
      == Prepend(output[i..k], if r.Ok? && !done then DecodeFrom(i + 4, 0, output.Length, state[..], r.value, freqs, cumulative, table, c)
                               else Decoded(r, []))
  {
    ghost var states := state[..];
    ghost var spec := DecodeFrom(i, 0, output.Length, states, input, freqs, cumulative, table, c);
    ghost var written: seq<Byte> := [];
    var rest := input;
    for j := 0 to 4
      invariant i + j <= output.Length
      invariant states == state[..] && written == output[i..i + j]
      invariant Prepend(written, DecodeFrom(i, j, output.Length, states, rest, freqs, cumulative, table, c)) == spec
      invariant forall m :: 0 <= m < output.Length && !(i <= m < i + j) ==> output[m] == old(output[m])
    {
      if i + j >= output.Length {
        assert written + [] == written;
        return Ok(rest), true, i + j;
      }
      ghost var d0 := DecodeFrom(i, j, output.Length, states, rest, freqs, cumulative, table, c);
      r := DecodeSymbol(i, j, rest, output, state, freqs, cumulative, table, c);
      ghost var b := output[i + j];
      assert output[i..i + j + 1] == written + [b];
      if r.Err? {
        PrependMany(written, [b], d0, Decoded(r, []), spec);
        return r, false, i + j + 1;
      }
      PrependMany(written, [b], d0, DecodeFrom(i, j + 1, output.Length, state[..], r.value, freqs, cumulative, table, c), spec);
      written := written + [b];
      states := state[..];
      rest := r.value;
    }
    return Ok(rest), false, i + 4;
  }

  /** A round has written `out[|before|..k]` after `before`: those bytes join what is written. */
  lemma RoundWritten(before: seq<Byte>, out: seq<Byte>, k: nat, d0: Decoded, next: Decoded, spec: Decoded)
    requires |before| <= k <= |out| && out[..|before|] == before
    requires Prepend(before, d0) == spec && d0 == Prepend(out[|before|..k], next)
    ensures Prepend(out[..k], next) == spec
  {
    assert out[..k] == before + out[|before|..k];
    PrependMany(before, out[|before|..k], d0, next, spec);
  }

  /** Writing more bytes moves them from what is left to decode to what is written. */
  lemma PrependMany(written: seq<Byte>, more: seq<Byte>, d0: Decoded, d1: Decoded, spec: Decoded)
    requires Prepend(written, d0) == spec && d0 == Prepend(more, d1)
    ensures Prepend(written + more, d1) == spec
  {
    assert written + (more + d1.output) == (written + more) + d1.output;
  }

  /**
   * One step of `decode`: output byte `i + j` is the symbol of state `j`'s slot; the state
   * advances and renormalises. The outcome is that byte, then the rest of the decoding.
   */
  method DecodeSymbol(i: nat, j: nat, input: seq<Byte>, output: array<Byte>, state: array<U32>, freqs: seq<U32>,
                      cumulative: seq<U32>, table: seq<Byte>, c: Collaborators)
    returns (r: Result<seq<Byte>, ErrorKind>)
    requires j < 4 && i + j < output.Length
    requires state.Length == 4 && |freqs| == 256 && |cumulative| == 256 && |table| == 4096
    modifies output, state
    ensures forall m :: 0 <= m < output.Length && m != i + j ==> output[m] == old(output[m])
    ensures DecodeFrom(i, j, output.Length, old(state[..]), input, freqs, cumulative, table, c)
      == Prepend([output[i + j]], if r.Ok? then DecodeFrom(i, j + 1, output.Length, state[..], r.value, freqs, cumulative, table, c)
                                  else Decoded(r, []))
  {
    ghost var states := state[..];
    var f := c.cumulativeFreq(state[j]);
    var s := table[f];
    output[i + j] := s;
    state[j] := c.advanceStep(state[j], cumulative[s], freqs[s]);
    var renormed := c.renorm(input, state[j]);
    if renormed.Err? {
      return Err(renormed.error);
    }
    state[j] := renormed.value.0;
    assert state[..] == states[j := renormed.value.0];
    r := Ok(renormed.value.1);
  }
}
