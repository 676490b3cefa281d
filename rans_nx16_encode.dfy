/**
 * The front end of the rANS Nx16 encoder (the rANS Nx16 codec of the CRAM codecs specification):
 * byte frequencies, their normalisation to a total of 4096, cumulative frequencies, the state
 * update and renormalisation, the alphabet, bit-packing of small alphabets, and the stream header.
 *
 * The order-0 and order-1 entropy coders and `write_uint7` are not part of this model; they are
 * passed in. Writers are in-memory buffers, so writing never fails.
 */
module RansNx16Encode {
  import opened Wrappers
  import opened RustNum

  /**
   * The `io::ErrorKind` the encoder reports; `Other` stands for an error of the order-0 or
   * order-1 entropy coder, which is passed on as it is.
   */
  datatype ErrorKind = InvalidInput | Other

  /** The total the frequencies are normalised to. */
  const Scale: nat := 4096

  /** The sum of a sequence, from the front. */
  function Sum(s: seq<int>): int
  {
    if s == [] then 0 else Sum(s[..|s| - 1]) + s[|s| - 1]
  }

  /** The frequency of each of the 256 byte values: entry `b` counts the occurrences of `b` in `src`. */
  function Counts(src: seq<Byte>): (f: seq<int>)
    ensures |f| == 256
  {
    seq(256, b requires 0 <= b < 256 => multiset(src)[b as Byte])
  }

  /** `build_frequencies`: one pass over `src`, adding one to the entry of each byte. */
  method BuildFrequencies(src: seq<Byte>) returns (frequencies: array<U32>)
    requires |src| < 0x1_0000_0000
    ensures fresh(frequencies) && frequencies[..] == Counts(src)
  {
    frequencies := new U32[256](_ => 0);
    assert frequencies[..] == Counts(src[..0]);
    for k := 0 to |src|
      invariant frequencies[..] == Counts(src[..k])
    {
      var i := src[k];
      CountsSnoc(src, k);
      frequencies[i] := frequencies[i] + 1;
    }
    assert src[..|src|] == src;
  }

  lemma {:induction false} CountAtMostLength(s: seq<Byte>, b: Byte)
    ensures multiset(s)[b] <= |s|
    decreases |s|
  {
    if s != [] {
      var n := |s| - 1;
      assert s == s[..n] + [s[n]];
      CountAtMostLength(s[..n], b);
    }
  }

  /** Reading one more byte adds one to its entry. */
  lemma CountsSnoc(src: seq<Byte>, k: nat)
    requires k < |src|
    ensures var f := Counts(src[..k]);
      f[src[k]] <= k && Counts(src[..k + 1]) == f[src[k] := f[src[k]] + 1]
  {
    assert src[..k + 1] == src[..k] + [src[k]];
    CountAtMostLength(src[..k], src[k]);
  }

  lemma {:induction false} SumUpdate(s: seq<int>, i: nat, v: int)
    requires i < |s|
    ensures Sum(s[i := v]) == Sum(s) - s[i] + v
    decreases |s|
  {
    var n := |s| - 1;
    if i < n {
      assert s[i := v][..n] == s[..n][i := v];
      SumUpdate(s[..n], i, v);
    } else {
      assert s[i := v][..n] == s[..n];
    }
  }

  /** The frequencies of `src` add up to its length. */
  lemma {:induction false} SumCounts(src: seq<Byte>)
    ensures Sum(Counts(src)) == |src|
    decreases |src|
  {
    if src == [] {
      assert Counts(src) == seq(256, _ => 0);
      ZeroSum(256);
    } else {
      var n := |src| - 1;
      CountsSnoc(src, n);
      assert src[..n + 1] == src;
      SumCounts(src[..n]);
      SumUpdate(Counts(src[..n]), src[n], Counts(src[..n])[src[n]] + 1);
    }
  }

  lemma {:induction false} ZeroSum(n: nat)
    ensures Sum(seq(n, _ => 0)) == 0
  {
    if n > 0 {
      assert seq(n, _ => 0)[..n - 1] == seq(n - 1, _ => 0);
      ZeroSum(n - 1);
    }
  }

  /**
   * The largest frequency and its index, as the first loop of `normalize_frequencies` finds them:
   * starting from 0 at index 0, a later index wins a tie (`>=`).
   */
  function MaxOf(f: seq<U32>): (m: (int, nat))
    ensures |f| == 0 ==> m == (0, 0)
    ensures |f| > 0 ==> m.1 < |f| && m.0 == f[m.1]
    ensures forall j :: 0 <= j < |f| ==> f[j] <= m.0
    ensures forall j :: m.1 < j < |f| ==> f[j] < m.0
  {
    if f == [] then (0, 0)
    else
      var m := MaxOf(f[..|f| - 1]);
      if f[|f| - 1] >= m.0 then (f[|f| - 1], |f| - 1) else m
  }

  /** Each frequency scaled to 4096ths of `sum`, rounded down. */
  function Scaled(f: seq<U32>, sum: nat): (q: seq<int>)
    requires sum > 0
    ensures |q| == |f|
  {
    seq(|f|, i requires 0 <= i < |f| => f[i] * Scale / sum)
  }

  /**
   * `normalize_frequencies`: all zeros when the frequencies add up to 0; otherwise each scaled to
   * 4096ths of the total, and what rounding down left short of 4096 added to the largest.
   */
  function Normalized(f: seq<U32>): (g: seq<int>)
    ensures |g| == |f|
  {
    var sum := Sum(f);
    if sum <= 0 then seq(|f|, _ => 0) else WithShortfall(f, Scaled(f, sum))
  }

  /** The scaled frequencies `q` of `f`, with what they fall short of 4096 added at the largest entry of `f`. */
  function WithShortfall(f: seq<U32>, q: seq<int>): (g: seq<int>)
    requires |q| == |f| > 0
    ensures |g| == |f|
  {
    var k := MaxOf(f).1;
    if Sum(q) < Scale then q[k := q[k] + (Scale - Sum(q))] else q
  }

  lemma {:induction false} SumNonNegative(f: seq<U32>)
    ensures Sum(f) >= 0
    ensures forall i :: 0 <= i < |f| ==> f[i] <= Sum(f)
    decreases |f|
  {
    if f != [] {
      SumNonNegative(f[..|f| - 1]);
    }
  }

  lemma SumSnoc(f: seq<int>, i: nat)
    requires i < |f|
    ensures Sum(f[..i + 1]) == Sum(f[..i]) + f[i]
  {
    assert f[..i + 1][..i] == f[..i];
  }

  lemma {:induction false} SumPrefix(f: seq<U32>, i: nat)
    requires i <= |f|
    ensures 0 <= Sum(f[..i]) <= Sum(f)
    decreases |f| - i
  {
    if i < |f| {
      SumPrefix(f, i + 1);
      SumSnoc(f, i);
    } else {
      assert f[..i] == f;
    }
    SumNonNegative(f[..i]);
  }

  /** A value at most `c` times `s`, divided by `s`, is at most `c`. */
  lemma DivAtMost(x: nat, s: nat, c: nat)
    requires s > 0 && x <= c * s
    ensures x / s <= c
  {
    assert x >= (x / s) * s;
    MulLeftCancel(x / s, c, s);
  }

  /** `a * s <= c * s` with `s > 0` gives `a <= c`. */
  lemma MulLeftCancel(a: int, c: int, s: nat)
    requires s > 0 && a * s <= c * s
    ensures a <= c
  {
    assert (a - c) * s <= 0;
  }

  lemma {:induction false} ScaledSumTimes(f: seq<U32>, s: nat)
    requires s > 0
    ensures Sum(Scaled(f, s)) * s <= Sum(f) * Scale
    decreases |f|
  {
    if f != [] {
      var n := |f| - 1;
      assert Scaled(f, s)[..n] == Scaled(f[..n], s);
      ScaledSumTimes(f[..n], s);
      var x := f[n] * Scale;
      assert (x / s) * s <= x;
      calc {
        Sum(Scaled(f, s)) * s;
        (Sum(Scaled(f[..n], s)) + x / s) * s;
        Sum(Scaled(f[..n], s)) * s + (x / s) * s;
      }
    }
  }

  /** Rounding down never overshoots: the scaled frequencies add up to at most 4096. */
  lemma ScaledSumBound(f: seq<U32>)
    requires Sum(f) > 0
    ensures 0 <= Sum(Scaled(f, Sum(f))) <= Scale
  {
    var s := Sum(f);
    var q := Scaled(f, s);
    ScaledSumTimes(f, s);
    forall i | 0 <= i < |q| ensures q[i] >= 0 {
      NatDivNonNegative(f[i] * Scale, s);
    }
    ScaledNonNegative(q);
    MulLeftCancel(Sum(q), Scale, s);
  }

  lemma NatDivNonNegative(x: nat, s: nat)
    requires s > 0
    ensures x / s >= 0
  {
  }

  lemma {:induction false} ScaledNonNegative(q: seq<int>)
    requires forall i :: 0 <= i < |q| ==> q[i] >= 0
    ensures Sum(q) >= 0
    decreases |q|
  {
    if q != [] {
      ScaledNonNegative(q[..|q| - 1]);
    }
  }

  /** Each scaled frequency is at most 4096. */
  lemma ScaledAtMost(f: seq<U32>, i: nat)
    requires i < |f| && Sum(f) > 0
    ensures 0 <= Scaled(f, Sum(f))[i] <= Scale
  {
    SumNonNegative(f);
    DivAtMost(f[i] * Scale, Sum(f), Scale);
  }

  /** `normalize_frequencies`: the total and largest entry, the scaled entries, then the shortfall. */
  method NormalizeFrequencies(frequencies: seq<U32>) returns (normalized: array<U32>)
    requires Sum(frequencies) < 0x1_0000_0000
    ensures fresh(normalized) && normalized[..] == Normalized(frequencies)
  {
    var sum, max, maxIndex := SumAndMax(frequencies);
    if sum == 0 {
      normalized := new U32[|frequencies|](_ => 0);
      return;
    }
    var normalizedSum;
    normalized, normalizedSum := ScaleFrequencies(frequencies, sum);
    if normalizedSum < Scale {
      ScaledAtMost(frequencies, maxIndex);
      normalized[maxIndex] := normalized[maxIndex] + (Scale - normalizedSum);
    }
  }

  /** The first loop of `normalize_frequencies`: the total, and the largest entry and its index. */
  method SumAndMax(frequencies: seq<U32>) returns (sum: U32, max: U32, maxIndex: nat)
    requires Sum(frequencies) < 0x1_0000_0000
    ensures sum == Sum(frequencies) && (max as int, maxIndex) == MaxOf(frequencies)
  {
    sum, max, maxIndex := 0, 0, 0;
    for i := 0 to |frequencies|
      invariant sum == Sum(frequencies[..i])
      invariant (max as int, maxIndex) == MaxOf(frequencies[..i])
    {
      var f := frequencies[i];
      assert frequencies[..i + 1][..i] == frequencies[..i];
      if f >= max {
        max := f;
        maxIndex := i;
      }
      SumPrefix(frequencies, i + 1);
      sum := sum + f;
    }
    assert frequencies[..|frequencies|] == frequencies;
  }

  /** The second loop of `normalize_frequencies`: each entry scaled, and the total of the scaled entries. */
  method ScaleFrequencies(frequencies: seq<U32>, sum: U32) returns (normalized: array<U32>, normalizedSum: nat)
    requires sum > 0 && sum == Sum(frequencies)
    ensures fresh(normalized) && normalized[..] == Scaled(frequencies, sum)
    ensures normalizedSum == Sum(Scaled(frequencies, sum)) <= Scale
  {
    ghost var q := Scaled(frequencies, sum);
    normalized := new U32[|frequencies|](_ => 0);
    normalizedSum := 0;
    for i := 0 to |frequencies|
      invariant normalized[..i] == q[..i]
      invariant normalizedSum == Sum(q[..i])
    {
      ScaledAtMost(frequencies, i);
      var normalizedFrequency := frequencies[i] * Scale / sum;
      normalized[i] := normalizedFrequency;
      assert normalized[..i + 1] == normalized[..i] + [normalized[i]];
      SumSnoc(q, i);
      normalizedSum := normalizedSum + normalizedFrequency;
    }
    assert q[..|frequencies|] == q;
    assert normalized[..] == normalized[..|frequencies|];
    ScaledSumBound(frequencies);
  }

  /** With a nonzero total, the normalised frequencies add up to exactly 4096. */
  lemma NormalizedSum(f: seq<U32>)
    requires Sum(f) > 0
    ensures Sum(Normalized(f)) == Scale
  {
    var q := Scaled(f, Sum(f));
    ScaledSumBound(f);
    if Sum(q) < Scale {
      var k := MaxOf(f).1;
      SumUpdate(q, k, q[k] + (Scale - Sum(q)));
    }
  }

  lemma {:induction false} AllZeroSum(f: seq<U32>)
    requires forall j :: 0 <= j < |f| ==> f[j] == 0
    ensures Sum(f) == 0
    decreases |f|
  {
    if f != [] {
      AllZeroSum(f[..|f| - 1]);
    }
  }

  /** With a zero total every normalised frequency is 0. */
  lemma NormalizedZeroTotal(f: seq<U32>, i: nat)
    requires i < |f| && Sum(f) <= 0
    ensures Normalized(f)[i] == 0
  {
  }

  /**
   * With a nonzero total each entry is its frequency scaled to 4096ths of the total, rounded down,
   * except that the last of the largest frequencies also takes the shortfall to 4096.
   */
  lemma NormalizedEntry(f: seq<U32>, i: nat)
    requires i < |f| && Sum(f) > 0
    ensures var g := Normalized(f);
      var q := Scaled(f, Sum(f));
      && (i != MaxOf(f).1 ==> g[i] == f[i] * Scale / Sum(f))
      && (i == MaxOf(f).1 ==> g[i] == q[i] + (if Sum(q) < Scale then Scale - Sum(q) else 0))
  {
    assert Normalized(f) == WithShortfall(f, Scaled(f, Sum(f)));
  }

  /** A symbol that does not occur keeps frequency 0. */
  lemma NormalizedKeepsZeros(f: seq<U32>, i: nat)
    requires i < |f| && f[i] == 0
    ensures Normalized(f)[i] == 0
  {
    if Sum(f) > 0 {
      if i == MaxOf(f).1 {
        AllZeroSum(f);
        assert false;
      }
      NormalizedEntry(f, i);
    }
  }

  /** The largest entry is the last index holding the largest frequency. */
  lemma MaxIndexIsLastLargest(f: seq<U32>)
    requires |f| > 0
    ensures var k := MaxOf(f).1;
      k < |f| && (forall j :: 0 <= j < |f| ==> f[j] <= f[k]) && (forall j :: k < j < |f| ==> f[j] < f[k])
  {
  }

  /** A symbol with at least 1/4096 of the total keeps a nonzero normalised frequency. */
  lemma NormalizedKeepsFrequent(f: seq<U32>, i: nat)
    requires i < |f| && Sum(f) > 0 && f[i] * Scale >= Sum(f)
    ensures Normalized(f)[i] >= 1
  {
    var s := Sum(f);
    DivAtLeast(f[i] * Scale, s);
    NormalizedEntry(f, i);
    ScaledSumBound(f);
  }

  lemma DivAtLeast(x: nat, s: nat)
    requires 0 < s <= x
    ensures x / s >= 1
  {
  }

  /**
   * A rarer symbol can drop to 0, since there is no minimum of 1: frequencies 1 and 4096 scale to
   * 0 and 4095, and the shortfall goes to the second.
   */
  lemma RareSymbolDropped()
    ensures Normalized([1, 4096]) == [0, 4096]
  {
    var f: seq<U32> := [1, 4096];
    assert f[..1] == [1] && f[..1][..0] == [];
    assert Sum(f) == 4097;
    var q := Scaled(f, 4097);
    assert q == [0, 4095];
    assert q[..1] == [0] && q[..1][..0] == [];
    assert Sum(q) == 4095;
    assert MaxOf(f[..1]) == (1, 0);
    assert MaxOf(f).1 == 1;
  }

  /**
   * `f * SCALE / sum` as written: `f * SCALE` is a `u32` product, which wraps (a panic in a debug
   * build) once a frequency reaches 2^20.
   */
  function ScaledAsWritten(f: seq<U32>, sum: nat): (q: seq<int>)
    requires sum > 0
    ensures |q| == |f|
  {
    seq(|f|, i requires 0 <= i < |f| => (f[i] * Scale) % 0x1_0000_0000 / sum)
  }

  /** `normalize_frequencies` as written, with the wrapping product. */
  function NormalizedAsWritten(f: seq<U32>): (g: seq<int>)
    ensures |g| == |f|
  {
    var sum := Sum(f);
    if sum <= 0 then seq(|f|, _ => 0) else WithShortfall(f, ScaledAsWritten(f, sum))
  }

  /**
   * Two symbols of 2^20 occurrences each: as written both products wrap to 0, the shortfall of
   * 4096 goes to the second, and the first symbol is left with frequency 0 although it occurs;
   * without the wrap each gets 2048.
   */
  lemma NormalizedAsWrittenDropsSymbol()
    ensures NormalizedAsWritten([0x10_0000, 0x10_0000]) == [0, 4096]
    ensures Normalized([0x10_0000, 0x10_0000]) == [2048, 2048]
  {
    var f: seq<U32> := [0x10_0000, 0x10_0000];
    assert f[..1] == [0x10_0000] && f[..1][..0] == [];
    assert Sum(f) == 0x20_0000;
    var w := ScaledAsWritten(f, 0x20_0000);
    assert w == [0, 0];
    assert w[..1] == [0] && w[..1][..0] == [];
    var q := Scaled(f, 0x20_0000);
    assert q == [2048, 2048];
    assert q[..1] == [2048] && q[..1][..0] == [];
    assert MaxOf(f[..1]) == (0x10_0000, 0);
    assert MaxOf(f).1 == 1;
  }

  /** Entry `i` is the total of the frequencies before `i`. */
  function Cumulative(f: seq<U32>): (c: seq<int>)
    ensures |c| == |f|
  {
    seq(|f|, i requires 0 <= i < |f| => Sum(f[..i]))
  }

  /** `build_cumulative_frequencies`: entry 0 is 0 and each next entry adds the frequency before it. */
  method BuildCumulativeFrequencies(frequencies: seq<U32>) returns (cumulative: array<U32>)
    requires |frequencies| > 0 && Sum(frequencies[..|frequencies| - 1]) < 0x1_0000_0000
    ensures fresh(cumulative) && cumulative[..] == Cumulative(frequencies)
  {
    ghost var c := Cumulative(frequencies);
    ghost var n := |frequencies|;
    cumulative := new U32[|frequencies|](_ => 0);
    assert frequencies[..0] == [];
    for i := 0 to |frequencies| - 1
      invariant cumulative[..i + 1] == c[..i + 1]
    {
      SumSnoc(frequencies, i);
      assert frequencies[..n - 1][..i + 1] == frequencies[..i + 1];
      SumPrefix(frequencies[..n - 1], i + 1);
      cumulative[i + 1] := cumulative[i] + frequencies[i];
      assert cumulative[..i + 2] == cumulative[..i + 1] + [cumulative[i + 1]];
    }
    assert cumulative[..] == cumulative[..n];
  }

  /**
   * The cumulative frequencies start at 0, each next one adds the frequency before it, and each
   * symbol's range `[c[i], c[i] + f[i])` ends at most at the total.
   */
  lemma CumulativeSteps(f: seq<U32>)
    requires |f| > 0
    ensures var c := Cumulative(f);
      && c[0] == 0
      && (forall i :: 0 <= i < |f| - 1 ==> c[i + 1] == c[i] + f[i])
      && (forall i :: 0 <= i < |f| ==> 0 <= c[i] && c[i] + f[i] <= Sum(f))
      && c[|f| - 1] + f[|f| - 1] == Sum(f)
  {
    var c := Cumulative(f);
    assert f[..0] == [];
    forall i | 0 <= i < |f|
      ensures c[i] + f[i] == Sum(f[..i + 1]) && 0 <= c[i] && c[i] + f[i] <= Sum(f)
    {
      SumSnoc(f, i);
      SumPrefix(f, i);
      SumPrefix(f, i + 1);
    }
    assert f[..|f|] == f;
  }

  /** `1 << n` for `n >= 0`. */
  function Pow2(n: int): (p: nat)
    ensures p > 0
  {
    if n <= 0 then 1 else 2 * Pow2(n - 1)
  }

  /**
   * `update`: the rANS state step `((r / f) << bits) + c + (r % f)`; the shift keeps the low 32
   * bits, and the two additions must not overflow.
   */
  function Update(r: U32, c: U32, f: U32, bits: nat): U32
    requires f > 0 && bits < 32
    requires ((r / f) * Pow2(bits)) % 0x1_0000_0000 + c + r % f < 0x1_0000_0000
  {
    ((r / f) * Pow2(bits)) % 0x1_0000_0000 + c + r % f
  }

  lemma MulLeftCancelStrict(a: int, c: int, s: nat)
    requires s > 0 && a * s < c * s
    ensures a < c
  {
    MulLeftCancel(a, c, s);
  }

  /** Euclidean division is unique: `q * p + s` with `s < p` has quotient `q` and remainder `s`. */
  lemma DivModUnique(q: nat, s: nat, p: nat)
    requires s < p
    ensures (q * p + s) / p == q && (q * p + s) % p == s
  {
    var x := q * p + s;
    var d := x / p;
    var m := x % p;
    assert d * p + m == x;
    assert (q - d) * p == m - s;
    MulLeftCancelStrict(q - d, 1, p);
    MulLeftCancelStrict(-1, q - d, p);
  }

  /**
   * The decoder's step undoes `update`: when the symbol's range `[c, c + f)` fits in the `bits`-bit
   * slots and `r / f` fits above them, the new state's low `bits` bits are the slot `c + r % f`,
   * its high part is `r / f`, and `f * high + low - c` gives back `r`.
   */
  lemma UpdateInverse(r: U32, c: U32, f: U32, bits: nat)
    requires f > 0 && bits < 32 && c + f <= Pow2(bits)
    requires (r / f + 1) * Pow2(bits) <= 0x1_0000_0000
    ensures ((r / f) * Pow2(bits)) % 0x1_0000_0000 + c + r % f < 0x1_0000_0000
    ensures var x := Update(r, c, f, bits);
      && x / Pow2(bits) == r / f
      && x % Pow2(bits) == c + r % f
      && f * (x / Pow2(bits)) + x % Pow2(bits) - c == r
  {
    StepSplit(r, c, f, Pow2(bits));
  }

  lemma StepSplit(r: nat, c: nat, f: nat, p: nat)
    requires f > 0 && c + f <= p && (r / f + 1) * p <= 0x1_0000_0000
    ensures ((r / f) * p) % 0x1_0000_0000 + c + r % f < 0x1_0000_0000
    ensures var x := ((r / f) * p) % 0x1_0000_0000 + c + r % f;
      x / p == r / f && x % p == c + r % f && f * (x / p) + x % p - c == r
  {
    var q := r / f;
    assert (q * p) % 0x1_0000_0000 == q * p by {
      assert q * p + p == (q + 1) * p;
      DivModUnique(0, q * p, 0x1_0000_0000);
    }
    SlotSplit(r, c, f, p);
  }

  lemma SlotSplit(r: nat, c: nat, f: nat, p: nat)
    requires f > 0 && c + f <= p
    ensures var x := (r / f) * p + c + r % f;
      x / p == r / f && x % p == c + r % f && f * (x / p) + x % p - c == r
  {
    var q := r / f;
    DivModUnique(q, c + r % f, p);
    assert f * q + r % f == r;
  }

  /** An in-memory `Write`: the bytes written so far. */
  class Writer {
    var bytes: seq<Byte>

    constructor New()
      ensures bytes == []
    {
      bytes := [];
    }

    method WriteU8(b: Byte)
      modifies this
      ensures bytes == old(bytes) + [b]
    {
      bytes := bytes + [b];
    }
  }

  /** What `normalize` writes from state `r`: while `r` is at least `bound`, bits 8-15, bits 0-7, then `r >> 16`. */
  function NormalizeBytes(r: nat, bound: nat): seq<Byte>
    requires bound > 0
    decreases r
  {
    if r >= bound then [(r / 0x100) % 0x100, r % 0x100] + NormalizeBytes(r / 0x1_0000, bound) else []
  }

  /** The state `normalize` returns: below `bound`. */
  function NormalizeState(r: nat, bound: nat): (x: nat)
    requires bound > 0
    ensures x < bound && x <= r
    decreases r
  {
    if r >= bound then NormalizeState(r / 0x1_0000, bound) else r
  }

  /** `normalize`: two bytes of the state per round until it is below `(1 << (31 - bits)) * freq_i`. */
  method Normalize(writer: Writer, r: U32, freqI: U32, bits: nat) returns (x: U32)
    requires bits <= 31 && freqI > 0 && Pow2(31 - bits) * freqI < 0x1_0000_0000
    modifies writer
    ensures writer.bytes == old(writer.bytes) + NormalizeBytes(r, Pow2(31 - bits) * freqI)
    ensures x == NormalizeState(r, Pow2(31 - bits) * freqI)
  {
    var bound := Pow2(31 - bits) * freqI;
    x := r;
    while x >= bound
      invariant writer.bytes + NormalizeBytes(x, bound) == old(writer.bytes) + NormalizeBytes(r, bound)
      invariant NormalizeState(x, bound) == NormalizeState(r, bound)
      decreases x
    {
      ghost var before := writer.bytes;
      writer.WriteU8((x / 0x100) % 0x100);
      writer.WriteU8(x % 0x100);
      assert writer.bytes + NormalizeBytes(x / 0x1_0000, bound) == before + NormalizeBytes(x, bound);
      x := x / 0x1_0000;
    }
    assert writer.bytes + [] == writer.bytes;
  }

  /** The state before `normalize`, from the pairs it wrote and the state it returned. */
  function Unnormalize(bytes: seq<Byte>, x: nat): nat
    decreases |bytes|
  {
    if |bytes| < 2 then x else Unnormalize(bytes[2..], x) * 0x1_0000 + bytes[0] as nat * 0x100 + bytes[1] as nat
  }

  /** `normalize` loses nothing: its bytes and the state it returns give back the state it started from. */
  lemma {:induction false} NormalizeRoundTrip(r: nat, bound: nat)
    requires bound > 0
    ensures Unnormalize(NormalizeBytes(r, bound), NormalizeState(r, bound)) == r
    decreases r
  {
    if r >= bound {
      var rest := NormalizeBytes(r / 0x1_0000, bound);
      var bytes := NormalizeBytes(r, bound);
      assert bytes[2..] == rest;
      NormalizeRoundTrip(r / 0x1_0000, bound);
      SplitLow16(r);
    }
  }

  lemma SplitLow16(r: nat)
    ensures (r / 0x1_0000) * 0x1_0000 + ((r / 0x100) % 0x100) * 0x100 + r % 0x100 == r
  {
    assert r % 0x1_0000 == ((r / 0x100) % 0x100) * 0x100 + r % 0x100;
  }

  /** The index of the first zero in `s`, if any (`position(|&f| f == 0)`). */
  function FirstZero(s: seq<U32>): (p: Option<nat>)
    ensures p.Some? ==> p.value < |s| && s[p.value] == 0 && forall j :: 0 <= j < p.value ==> s[j] != 0
    ensures p.None? ==> forall j :: 0 <= j < |s| ==> s[j] != 0
  {
    if s == [] then None
    else if s[0] == 0 then Some(0)
    else match FirstZero(s[1..])
      case None => None
      case Some(p) => Some(p + 1)
  }

  /**
   * The run written after symbol `sym`: how many of the symbols after it are present, up to the
   * first absent one. When every later symbol is present, `unwrap_or(255)` gives 255 as written;
   * the intended count is the number of symbols left.
   */
  function RunAfter(f: seq<U32>, sym: nat, asWritten: bool): nat
    requires sym < |f|
  {
    match FirstZero(f[sym + 1..])
    case Some(p) => p
    case None => if asWritten then 255 else |f| - sym - 1
  }

  /**
   * What `write_alphabet` writes from symbol `sym` on, with `rle` symbols still implied by the last
   * run: a present symbol is skipped while a run covers it; otherwise its byte is written, and when
   * the symbol before it is present, the length of the run that follows; a 0 byte ends the list.
   */
  function AlphabetFrom(f: seq<U32>, sym: nat, rle: nat, asWritten: bool): seq<Byte>
    requires sym <= |f|
    decreases |f| - sym
  {
    if sym == |f| then [0]
    else if f[sym] == 0 then AlphabetFrom(f, sym + 1, rle, asWritten)
    else if rle > 0 then AlphabetFrom(f, sym + 1, rle - 1, asWritten)
    else if sym > 0 && f[sym - 1] > 0 then
      var run := RunAfter(f, sym, asWritten);
      [sym % 256, run % 256] + AlphabetFrom(f, sym + 1, run, asWritten)
    else [sym % 256] + AlphabetFrom(f, sym + 1, 0, asWritten)
  }

  /** The alphabet of `f`, with the run that reaches the last symbol counted as intended. */
  function AlphabetBytes(f: seq<U32>): seq<Byte>
  {
    AlphabetFrom(f, 0, 0, false)
  }

  /** The alphabet of `f` as `write_alphabet` is written. */
  function AlphabetBytesAsWritten(f: seq<U32>): seq<Byte>
  {
    AlphabetFrom(f, 0, 0, true)
  }

  /** `write_alphabet`, with the run that reaches the last symbol counted as intended. */
  method WriteAlphabet(writer: Writer, frequencies: seq<U32>)
    modifies writer
    ensures writer.bytes == old(writer.bytes) + AlphabetBytes(frequencies)
  {
    var rle := 0;
    for sym := 0 to |frequencies|
      invariant writer.bytes + AlphabetFrom(frequencies, sym, rle, false)
        == old(writer.bytes) + AlphabetBytes(frequencies)
    {
      ghost var before := writer.bytes;
      if frequencies[sym] == 0 {
      } else if rle > 0 {
        rle := rle - 1;
      } else {
        writer.WriteU8(sym % 256);
        if sym > 0 && frequencies[sym - 1] > 0 {
          rle := RunAfter(frequencies, sym, false);
          writer.WriteU8(rle % 256);
          assert before + ([sym % 256, rle % 256] + AlphabetFrom(frequencies, sym + 1, rle, false))
            == writer.bytes + AlphabetFrom(frequencies, sym + 1, rle, false);
        } else {
          assert before + ([sym % 256] + AlphabetFrom(frequencies, sym + 1, 0, false))
            == writer.bytes + AlphabetFrom(frequencies, sym + 1, 0, false);
        }
      }
    }
    writer.WriteU8(0);
  }

  /** Adds `sym` to the alphabet read after it. */
  function Mark(sym: nat, r: Option<(set<nat>, seq<Byte>)>): Option<(set<nat>, seq<Byte>)>
  {
    if r.None? then None else Some(({sym} + r.value.0, r.value.1))
  }

  /**
   * The alphabet reader of the rANS Nx16 format, having just read symbol `sym` with `rle` symbols
   * still implied: it marks `sym`; a pending run implies the next symbol (past 255 is an error);
   * otherwise the next byte ends the list when 0, and is the next symbol otherwise, followed by a
   * run length when it follows `sym` directly.
   */
  function AlphabetRead(bytes: seq<Byte>, sym: nat, rle: nat): Option<(set<nat>, seq<Byte>)>
    decreases |bytes|, rle
  {
    if rle > 0 then
      if sym >= 255 then None else Mark(sym, AlphabetRead(bytes, sym + 1, rle - 1))
    else if |bytes| == 0 then None
    else if bytes[0] == 0 then Some(({sym}, bytes[1..]))
    else if bytes[0] == sym + 1 then
      if |bytes| < 2 then None else Mark(sym, AlphabetRead(bytes[2..], bytes[0], bytes[1]))
    else Mark(sym, AlphabetRead(bytes[1..], bytes[0], 0))
  }

  /** Reads an alphabet: its first symbol, then the rest; gives the symbols and what follows the list. */
  function ReadAlphabet(bytes: seq<Byte>): Option<(set<nat>, seq<Byte>)>
  {
    if |bytes| == 0 then None else AlphabetRead(bytes[1..], bytes[0], 0)
  }

  /** The symbols from `lo` on that are present in `f`. */
  function PresentFrom(f: seq<U32>, lo: nat): set<nat>
  {
    set j | lo <= j < |f| && f[j] > 0
  }

  /** The first present symbol from `i` on, or `|f|`. */
  function NextPresent(f: seq<U32>, i: nat): (m: nat)
    requires i <= |f|
    ensures i <= m <= |f| && (m < |f| ==> f[m] > 0)
    ensures forall j :: i <= j < m ==> f[j] == 0
    decreases |f| - i
  {
    if i == |f| || f[i] > 0 then i else NextPresent(f, i + 1)
  }

  /** Absent symbols write nothing. */
  lemma {:induction false} SkipAbsent(f: seq<U32>, i: nat, m: nat, rle: nat, asWritten: bool)
    requires i <= m <= |f|
    requires forall j :: i <= j < m ==> f[j] == 0
    ensures AlphabetFrom(f, i, rle, asWritten) == AlphabetFrom(f, m, rle, asWritten)
    decreases m - i
  {
    if i < m {
      SkipAbsent(f, i + 1, m, rle, asWritten);
    }
  }

  /** The `rle` symbols after `last` are all present. */
  predicate RunPresent(f: seq<U32>, last: nat, rle: nat)
  {
    last + rle < |f| && forall j :: last < j <= last + rle ==> f[j] > 0
  }

  /** The run after `sym`, as intended, covers only present symbols. */
  lemma RunIsPresent(f: seq<U32>, sym: nat)
    requires sym < |f| <= 256
    ensures RunAfter(f, sym, false) < 256 && RunPresent(f, sym, RunAfter(f, sym, false))
  {
    var rest := f[sym + 1..];
    forall j | sym < j <= sym + RunAfter(f, sym, false)
      ensures f[j] > 0
    {
      assert rest[j - sym - 1] == f[j];
    }
  }

  /**
   * The reader, having read symbol `last` with `rle` symbols implied, reads back everything the
   * writer writes after `last` with the same pending run: the present symbols from `last` on.
   */
  lemma {:induction false} ReadsAlphabetFrom(f: seq<U32>, last: nat, rle: nat, tail: seq<Byte>)
    requires |f| == 256 && last < 256 && f[last] > 0
    requires RunPresent(f, last, rle)
    ensures AlphabetRead(AlphabetFrom(f, last + 1, rle, false) + tail, last, rle)
      == Some((PresentFrom(f, last), tail))
    decreases 256 - last, 2
  {
    if rle > 0 {
      ReadsImplied(f, last, rle, tail);
    } else {
      ReadsNext(f, last, tail);
    }
  }

  /** A pending run: the next symbol is implied without reading. */
  lemma {:induction false} ReadsImplied(f: seq<U32>, last: nat, rle: nat, tail: seq<Byte>)
    requires |f| == 256 && last < 256 && f[last] > 0 && rle > 0
    requires RunPresent(f, last, rle)
    ensures AlphabetRead(AlphabetFrom(f, last + 1, rle, false) + tail, last, rle)
      == Some((PresentFrom(f, last), tail))
    decreases 256 - last, 1
  {
    assert f[last + 1] > 0;
    assert RunPresent(f, last + 1, rle - 1);
    ReadsAlphabetFrom(f, last + 1, rle - 1, tail);
    assert PresentFrom(f, last) == {last} + PresentFrom(f, last + 1);
  }

  /** No pending run: the next present symbol is read, or the 0 that ends the list. */
  lemma {:induction false} ReadsNext(f: seq<U32>, last: nat, tail: seq<Byte>)
    requires |f| == 256 && last < 256 && f[last] > 0
    ensures AlphabetRead(AlphabetFrom(f, last + 1, 0, false) + tail, last, 0)
      == Some((PresentFrom(f, last), tail))
    decreases 256 - last, 1
  {
    var m := NextPresent(f, last + 1);
    SkipAbsent(f, last + 1, m, 0, false);
    if m == 256 {
      assert PresentFrom(f, last) == {last};
    } else {
      ReadsSymbol(f, last, m, tail);
    }
  }

  /** The next present symbol `m` is read, with its run when it follows `last` directly. */
  lemma {:induction false} ReadsSymbol(f: seq<U32>, last: nat, m: nat, tail: seq<Byte>)
    requires |f| == 256 && last < m < 256 && f[last] > 0 && f[m] > 0
    requires forall j :: last < j < m ==> f[j] == 0
    ensures AlphabetRead(AlphabetFrom(f, m, 0, false) + tail, last, 0)
      == Some((PresentFrom(f, last), tail))
    decreases 256 - last, 0
  {
    assert PresentFrom(f, last) == {last} + PresentFrom(f, m);
    if m == last + 1 {
      var run := RunAfter(f, m, false);
      RunIsPresent(f, m);
      var bytes := [m, run] + (AlphabetFrom(f, m + 1, run, false) + tail);
      assert AlphabetFrom(f, m, 0, false) + tail == bytes;
      assert bytes[2..] == AlphabetFrom(f, m + 1, run, false) + tail;
      ReadsAlphabetFrom(f, m, run, tail);
    } else {
      var bytes := [m] + (AlphabetFrom(f, m + 1, 0, false) + tail);
      assert AlphabetFrom(f, m, 0, false) + tail == bytes;
      assert bytes[1..] == AlphabetFrom(f, m + 1, 0, false) + tail;
      ReadsAlphabetFrom(f, m, 0, tail);
    }
  }

  /** Reading back the alphabet of 256 frequencies with a present symbol gives the present symbols and what follows. */
  lemma AlphabetRoundTrip(f: seq<U32>, tail: seq<Byte>)
    requires |f| == 256 && exists j :: 0 <= j < 256 && f[j] > 0
    ensures ReadAlphabet(AlphabetBytes(f) + tail) == Some((PresentFrom(f, 0), tail))
  {
    var m := NextPresent(f, 0);
    SkipAbsent(f, 0, m, 0, false);
    var bytes := [m] + (AlphabetFrom(f, m + 1, 0, false) + tail);
    assert AlphabetBytes(f) + tail == bytes;
    assert bytes[1..] == AlphabetFrom(f, m + 1, 0, false) + tail;
    ReadsAlphabetFrom(f, m, 0, tail);
    assert PresentFrom(f, 0) == PresentFrom(f, m);
  }

  /**
   * Only symbols 254 and 255 present: as written the run after 254 is 255, and the reader runs
   * past symbol 255; counted as intended the run is 0 and the alphabet reads back.
   */
  lemma AlphabetAsWrittenOverruns()
    ensures var f := seq(256, j => if j >= 254 then 1 else 0);
      && AlphabetBytesAsWritten(f) == [254, 255, 255, 0]
      && ReadAlphabet(AlphabetBytesAsWritten(f)) == None
      && AlphabetBytes(f) == [254, 255, 0, 0]
      && ReadAlphabet(AlphabetBytes(f)) == Some(({254, 255}, []))
  {
    var f: seq<U32> := seq(256, j => if j >= 254 then 1 else 0);
    SkipAbsent(f, 0, 254, 0, true);
    SkipAbsent(f, 0, 254, 0, false);
    assert f[256..] == [];
    assert AlphabetFrom(f, 255, 0, true) == [255, 255] + AlphabetFrom(f, 256, 255, true);
    assert AlphabetFrom(f, 255, 0, false) == [255, 0] + AlphabetFrom(f, 256, 0, false);
    var written: seq<Byte> := [254, 255, 255, 0];
    assert written[1..][2..] == [0];
    assert AlphabetRead([0], 255, 255) == None;
    var intended: seq<Byte> := [254, 255, 0, 0];
    assert AlphabetBytes(f) == intended;
    assert intended[1..][2..] == [0];
    var last: seq<Byte> := [0];
    assert last[1..] == [];
    assert AlphabetRead(last, 255, 0) == Some(({255}, []));
    assert AlphabetRead(intended[1..], 254, 0) == Mark(254, AlphabetRead([0], 255, 0));
    assert {254} + {255} == {254, 255};
  }

  /** The symbols below `k` that occur in `counts`, in ascending order. */
  function Symbols(counts: seq<int>, k: nat): (syms: seq<Byte>)
    requires k <= |counts| <= 256
    ensures |syms| <= k
  {
    if k == 0 then [] else Symbols(counts, k - 1) + (if counts[k - 1] > 0 then [k - 1] else [])
  }

  /** The list holds exactly the present symbols below `k`, each once, in ascending order. */
  lemma {:induction false} SymbolsAscending(counts: seq<int>, k: nat)
    requires k <= |counts| <= 256
    ensures var syms := Symbols(counts, k);
      && (forall i :: 0 <= i < |syms| ==> syms[i] < k && counts[syms[i]] > 0)
      && (forall i, j :: 0 <= i < j < |syms| ==> syms[i] < syms[j])
      && (forall x :: 0 <= x < k && counts[x] > 0 ==> x in syms)
    decreases k
  {
    if k > 0 {
      SymbolsAscending(counts, k - 1);
    }
  }

  /** `lut[sym]` for a present symbol: how many present symbols are below it. */
  function Rank(counts: seq<int>, sym: nat): nat
    requires sym <= |counts| <= 256
  {
    |Symbols(counts, sym)|
  }

  /** The symbols below `k` are those below `k2` up to the rank of `k`. */
  lemma {:induction false} SymbolsPrefix(counts: seq<int>, k: nat, k2: nat)
    requires k <= k2 <= |counts| <= 256
    ensures Rank(counts, k) <= Rank(counts, k2) && Symbols(counts, k2)[..Rank(counts, k)] == Symbols(counts, k)
    decreases k2
  {
    if k < k2 {
      SymbolsPrefix(counts, k, k2 - 1);
      var a := Symbols(counts, k2 - 1);
      var e: seq<Byte> := if counts[k2 - 1] > 0 then [k2 - 1] else [];
      assert (a + e)[..Rank(counts, k)] == a[..Rank(counts, k)];
    }
  }

  /** A present symbol is found in the ascending list at its rank. */
  lemma RankFindsSymbol(counts: seq<int>, sym: nat)
    requires sym < |counts| <= 256 && counts[sym] > 0
    ensures Rank(counts, sym) < Rank(counts, |counts|)
    ensures Symbols(counts, |counts|)[Rank(counts, sym)] == sym
  {
    SymbolsPrefix(counts, sym + 1, |counts|);
    var upTo := Symbols(counts, sym + 1);
    assert upTo == Symbols(counts, sym) + [sym as Byte];
    assert upTo[Rank(counts, sym)] == sym;
    var all := Symbols(counts, |counts|);
    assert all[..|upTo|] == upTo;
    assert all[Rank(counts, sym)] == all[..|upTo|][Rank(counts, sym)];
  }

  /** With every symbol below `k` present, the list is `0, 1, …, k - 1`. */
  lemma {:induction false} AllPresent(counts: seq<int>, k: nat)
    requires k <= |counts| <= 256 && forall x :: 0 <= x < k ==> counts[x] > 0
    ensures Symbols(counts, k) == seq(k, i => i)
    decreases k
  {
    if k > 0 {
      AllPresent(counts, k - 1);
    }
  }

  /** `lut`: the rank of each present symbol, 0 for the others. */
  function Lut(counts: seq<int>): (lut: seq<Byte>)
    requires |counts| == 256
    ensures |lut| == 256
  {
    seq(256, s requires 0 <= s < 256 => if counts[s] > 0 then Rank(counts, s) else 0)
  }

  /** Each byte of `src` looked up in `lut`. */
  function Lookup(src: seq<Byte>, lut: seq<Byte>): (ranks: seq<nat>)
    requires |lut| == 256
    ensures |ranks| == |src|
  {
    seq(|src|, i requires 0 <= i < |src| => lut[src[i]])
  }

  /** The rank of each byte of `src`. */
  function Ranks(src: seq<Byte>): (ranks: seq<nat>)
    ensures |ranks| == |src|
  {
    Lookup(src, Lut(Counts(src)))
  }

  /** Every byte of `src` occurs, so its rank is below the number of distinct bytes and picks it out of the list. */
  lemma RanksFindSymbols(src: seq<Byte>, i: nat)
    requires i < |src|
    ensures var counts := Counts(src);
      Ranks(src)[i] < Rank(counts, 256) && Symbols(counts, 256)[Ranks(src)[i]] == src[i]
  {
    var counts := Counts(src);
    assert src[i] in multiset(src);
    assert counts[src[i]] > 0;
    RankFindsSymbol(counts, src[i]);
  }

  /** Bits per rank: 1 for up to 2 symbols, 2 for up to 4, 4 for up to 16. */
  function PackBits(n: nat): (bits: nat)
    requires 2 <= n <= 16
    ensures (bits == 1 || bits == 2 || bits == 4) && n <= Pow2(bits)
  {
    assert Pow2(4) == 16;
    if n <= 2 then 1 else if n <= 4 then 2 else 4
  }

  lemma {:induction false} Pow2Add(a: nat, b: nat)
    ensures Pow2(a + b) == Pow2(a) * Pow2(b)
    decreases a
  {
    if a > 0 {
      Pow2Add(a - 1, b);
      MulAssoc(2, Pow2(a - 1), Pow2(b));
    }
  }

  lemma {:induction false} Pow2Mono(a: nat, b: nat)
    requires a <= b
    ensures Pow2(a) <= Pow2(b)
    decreases b
  {
    if a < b {
      Pow2Mono(a, b - 1);
    }
  }

  lemma PackFieldStep(x: int, v: int, bits: nat, k: nat)
    requires 0 <= x < Pow2(bits * k) && 0 <= v < Pow2(bits)
    ensures 0 <= x + v * Pow2(bits * k) < Pow2(bits * (k + 1))
  {
    var n := bits * k;
    MulNat(bits, k);
    var q := Pow2(n);
    var p := Pow2(bits);
    Pow2Add(n, bits);
    assert bits * (k + 1) == n + bits;
    MulMono(v, p - 1, q);
    MulMono(0, v, q);
    assert (p - 1) * q == q * p - q;
  }

  lemma MulAssoc(a: int, b: int, c: int)
    ensures a * (b * c) == (a * b) * c
  {
  }

  lemma Distrib(a: int, b: int, c: int)
    ensures (a + b) * c == a * c + b * c
  {
  }

  lemma MulNat(a: nat, b: nat)
    ensures a * b >= 0
  {
  }

  lemma MulMono(a: int, b: int, q: nat)
    requires a <= b
    ensures a * q <= b * q
  {
    assert b * q - a * q == (b - a) * q;
  }

  /**
   * One packed byte: rank `i` of the chunk shifted left by `i * bits`. The fields do not overlap,
   * so or-ing them in is adding them.
   */
  function PackByte(c: seq<nat>, bits: nat): (b: int)
    requires forall i :: 0 <= i < |c| ==> c[i] < Pow2(bits)
    ensures 0 <= b < Pow2(bits * |c|)
  {
    if c == [] then 0
    else
      var k := |c| - 1;
      var x := PackByte(c[..k], bits);
      PackFieldStep(x, c[k], bits, k);
      x + c[k] * Pow2(bits * k)
  }

  /** The same byte, read from the low end: the first rank, then the rest above it. */
  lemma {:induction false} PackByteFront(c: seq<nat>, bits: nat)
    requires |c| > 0 && forall i :: 0 <= i < |c| ==> c[i] < Pow2(bits)
    ensures PackByte(c, bits) == PackByte(c[1..], bits) * Pow2(bits) + c[0]
    decreases |c|
  {
    var k := |c| - 1;
    if k == 0 {
      assert c[..0] == [] && c[1..] == [];
    } else {
      PackByteFront(c[..k], bits);
      assert c[..k][1..] == c[1..][..k - 1];
      MulNat(bits, k - 1);
      var m := bits * (k - 1);
      Pow2Add(m, bits);
      assert m + bits == bits * k;
      var p := Pow2(bits);
      var y := PackByte(c[1..][..k - 1], bits);
      var w := Pow2(m);
      assert PackByte(c, bits) == PackByte(c[..k], bits) + c[k] * Pow2(bits * k);
      assert PackByte(c[..k], bits) == y * p + c[0];
      assert Pow2(bits * k) == w * p;
      assert PackByte(c[1..], bits) == y + c[k] * w;
      ShiftSum(y, c[k], w, p, c[0]);
    }
  }

  /** Moving the lowest field out of a sum of shifted fields. */
  lemma ShiftSum(y: int, ck: int, w: int, p: int, c0: int)
    ensures (y * p + c0) + ck * (w * p) == (y + ck * w) * p + c0
  {
    MulAssoc(ck, w, p);
    Distrib(y, ck * w, p);
  }

  /** Field `i` of `bits` bits of `x`, from the low end: `(x >> (i * bits)) & mask`. */
  function Field(x: int, i: nat, bits: nat): int
    decreases i
  {
    if i == 0 then x % Pow2(bits) else Field(x / Pow2(bits), i - 1, bits)
  }

  /** Each field of a packed byte is the rank packed there. */
  lemma {:induction false} FieldOfPack(c: seq<nat>, bits: nat, i: nat)
    requires i < |c| && forall j :: 0 <= j < |c| ==> c[j] < Pow2(bits)
    ensures Field(PackByte(c, bits), i, bits) == c[i]
    decreases i
  {
    PackByteFront(c, bits);
    DivModUnique(PackByte(c[1..], bits), c[0], Pow2(bits));
    if i > 0 {
      FieldOfPack(c[1..], bits, i - 1);
    }
  }

  lemma PackByteFits(c: seq<nat>, bits: nat)
    requires (forall i :: 0 <= i < |c| ==> c[i] < Pow2(bits)) && bits * |c| <= 8
    ensures PackByte(c, bits) < 256
  {
    Pow2Mono(bits * |c|, 8);
  }

  /** Ranks per byte, `8 / bits`: 8 at one bit, 4 at two, 2 at four. */
  function PerByte(bits: nat): (k: nat)
    requires (bits == 1 || bits == 2 || bits == 4)
    ensures k >= 2
  {
    if bits == 1 then 8 else if bits == 2 then 4 else 2
  }

  /** A chunk of at most `8 / bits` ranks, packed into one byte. */
  function ChunkByte(c: seq<nat>, bits: nat): (b: Byte)
    requires (bits == 1 || bits == 2 || bits == 4) && |c| <= PerByte(bits)
    requires forall i :: 0 <= i < |c| ==> c[i] < Pow2(bits)
    ensures b == PackByte(c, bits)
  {
    assert bits * |c| <= 8 by {
      if bits == 1 {
      } else if bits == 2 {
      } else {
      }
    }
    PackByteFits(c, bits);
    PackByte(c, bits)
  }

  lemma DivStep(n: nat, k: nat)
    requires 0 < k <= n
    ensures n / k >= 1 && (n - k) / k == n / k - 1
  {
    var q := n / k;
    assert q * k + n % k == n;
    assert q >= 1 by {
      MulLeftCancelStrict(0, q + 0, k);
    }
    assert (q - 1) * k + n % k == n - k;
    DivModUnique(q - 1, n % k, k);
  }

  /**
   * The body: the ranks in chunks of `k = 8 / bits` (`src.chunks(k)`), each packed into a byte
   * of a buffer of `len / k + 1` bytes, whose last byte stays 0 when no short chunk is left.
   */
  function PackBody(ranks: seq<nat>, bits: nat): (body: seq<Byte>)
    requires (bits == 1 || bits == 2 || bits == 4) && forall i :: 0 <= i < |ranks| ==> ranks[i] < Pow2(bits)
    ensures |body| >= 1
    decreases |ranks|
  {
    var k := PerByte(bits);
    if |ranks| < k then [ChunkByte(ranks, bits)]
    else [ChunkByte(ranks[..k], bits)] + PackBody(ranks[k..], bits)
  }

  /** The body has `len / k + 1` bytes, so a last chunk that comes out empty leaves a 0 byte. */
  lemma {:induction false} PackBodyLength(ranks: seq<nat>, bits: nat)
    requires (bits == 1 || bits == 2 || bits == 4) && forall i :: 0 <= i < |ranks| ==> ranks[i] < Pow2(bits)
    ensures |PackBody(ranks, bits)| == |ranks| / PerByte(bits) + 1
    decreases |ranks|
  {
    var k := PerByte(bits);
    if |ranks| >= k {
      PackBodyLength(ranks[k..], bits);
      DivStep(|ranks|, k);
    }
  }

  /** The first `m` fields of `x`. */
  function Fields(x: int, bits: nat, m: nat): (f: seq<int>)
    ensures |f| == m
  {
    seq(m, j requires 0 <= j < m => Field(x, j, bits))
  }

  /** The first `count` ranks of a body packed `8 / bits` to a byte, low bits first. */
  function Unpack(body: seq<Byte>, bits: nat, count: nat): (ranks: seq<int>)
    requires (bits == 1 || bits == 2 || bits == 4)
    ensures |ranks| == count
    decreases count
  {
    var k := PerByte(bits);
    if count == 0 || body == [] then seq(count, _ => 0)
    else
      var m := if count < k then count else k;
      Fields(body[0], bits, m) + Unpack(body[1..], bits, count - m)
  }

  /** The fields of a packed chunk are its ranks. */
  lemma FieldsOfPack(c: seq<nat>, bits: nat)
    requires forall i :: 0 <= i < |c| ==> c[i] < Pow2(bits)
    ensures Fields(PackByte(c, bits), bits, |c|) == c
  {
    forall j | 0 <= j < |c|
      ensures Field(PackByte(c, bits), j, bits) == c[j]
    {
      FieldOfPack(c, bits, j);
    }
  }

  /** Unpacking the body gives back every rank. */
  lemma {:induction false} UnpackPack(ranks: seq<nat>, bits: nat)
    requires (bits == 1 || bits == 2 || bits == 4) && forall i :: 0 <= i < |ranks| ==> ranks[i] < Pow2(bits)
    ensures Unpack(PackBody(ranks, bits), bits, |ranks|) == ranks
    decreases |ranks|
  {
    var k := PerByte(bits);
    var body := PackBody(ranks, bits);
    if |ranks| == 0 {
    } else if |ranks| < k {
      FieldsOfPack(ranks, bits);
      assert body[1..] == [];
    } else {
      FieldsOfPack(ranks[..k], bits);
      UnpackPack(ranks[k..], bits);
      assert body[0] == PackByte(ranks[..k], bits);
      assert body[1..] == PackBody(ranks[k..], bits);
      assert Unpack(body, bits, |ranks|) == Fields(body[0], bits, k) + Unpack(body[1..], bits, |ranks| - k);
      assert ranks[..k] + ranks[k..] == ranks;
    }
  }

  /** The header and the body `encode_pack` returns. */
  datatype Packed = Packed(header: seq<Byte>, body: seq<Byte>)

  /**
   * `encode_pack` once `n` distinct symbols are counted: an empty body for at most one symbol,
   * ranks packed 8, 4 or 2 to a byte for up to 2, 4 or 16, InvalidInput above 16; the header is
   * `n`, the present symbols in ascending order, then the body length as uint7 (`len as u32`).
   */
  function PackWith(src: seq<Byte>, n: nat, writeUint7: U32 -> seq<Byte>): Result<Packed, ErrorKind>
    requires n <= 1 || 16 < n || forall i :: 0 <= i < |src| ==> Ranks(src)[i] < n
  {
    if 16 < n then Err(InvalidInput)
    else
      var body := if n <= 1 then [] else PackBody(Ranks(src), PackBits(n));
      Ok(Packed([n] + Symbols(Counts(src), 256) + writeUint7(|body| % 0x1_0000_0000), body))
  }

  /** `encode_pack`, counting the distinct symbols without a bound. */
  function Pack(src: seq<Byte>, writeUint7: U32 -> seq<Byte>): Result<Packed, ErrorKind>
  {
    var n := Rank(Counts(src), 256);
    assert forall i :: 0 <= i < |src| ==> Ranks(src)[i] < n by {
      forall i | 0 <= i < |src| ensures Ranks(src)[i] < n {
        RanksFindSymbols(src, i);
      }
    }
    PackWith(src, n, writeUint7)
  }

  /** `encode_pack` as written: `n` is a `u8`, so a 256th distinct symbol wraps it to 0. */
  function PackAsWritten(src: seq<Byte>, writeUint7: U32 -> seq<Byte>): Result<Packed, ErrorKind>
  {
    var n := Rank(Counts(src), 256);
    assert n % 256 <= 1 || n % 256 == n;
    assert forall i :: 0 <= i < |src| ==> Ranks(src)[i] < n by {
      forall i | 0 <= i < |src| ensures Ranks(src)[i] < n {
        RanksFindSymbols(src, i);
      }
    }
    PackWith(src, n % 256, writeUint7)
  }

  /**
   * The header starts with the number `n` of distinct bytes, lists them in ascending order and
   * ends with the body length; more than 16 is InvalidInput, and at most one gives an empty body.
   */
  lemma PackHeader(src: seq<Byte>, writeUint7: U32 -> seq<Byte>)
    ensures var syms := Symbols(Counts(src), 256);
      var n := |syms|;
      var r := Pack(src, writeUint7);
      && (r.Err? <==> n > 16)
      && (r.Ok? ==> r.value.header == [n] + syms + writeUint7(|r.value.body| % 0x1_0000_0000))
      && (n <= 1 ==> r.Ok? && r.value.body == [])
  {
  }

  /** With an empty body the header alone gives `src` back: no byte at all, or one byte repeated. */
  lemma PackFewSymbols(src: seq<Byte>)
    ensures var syms := Symbols(Counts(src), 256);
      && (|syms| == 0 ==> src == [])
      && (|syms| == 1 ==> forall i :: 0 <= i < |src| ==> src[i] == syms[0])
  {
    if src != [] {
      RanksFindSymbols(src, 0);
    }
    forall i | 0 <= i < |src|
      ensures Ranks(src)[i] < |Symbols(Counts(src), 256)|
      ensures Symbols(Counts(src), 256)[Ranks(src)[i]] == src[i]
    {
      RanksFindSymbols(src, i);
    }
  }

  /**
   * Packing loses nothing: with 2 to 16 distinct bytes the body has `len / k + 1` bytes, and it
   * unpacks, `PackBits(n)` bits per byte of `src`, to indexes into the header's list that give
   * back `src`.
   */
  lemma PackUnpacks(src: seq<Byte>, writeUint7: U32 -> seq<Byte>)
    ensures var syms := Symbols(Counts(src), 256);
      var n := |syms|;
      var r := Pack(src, writeUint7);
      2 <= n <= 16 ==>
        var u := Unpack(r.value.body, PackBits(n), |src|);
        && |r.value.body| == |src| / PerByte(PackBits(n)) + 1
        && forall i :: 0 <= i < |src| ==> 0 <= u[i] < n && syms[u[i]] == src[i]
  {
    var syms := Symbols(Counts(src), 256);
    var n := |syms|;
    if 2 <= n <= 16 {
      forall i | 0 <= i < |src|
        ensures Ranks(src)[i] < n && syms[Ranks(src)[i]] == src[i]
      {
        RanksFindSymbols(src, i);
      }
      assert Pack(src, writeUint7).value.body == PackBody(Ranks(src), PackBits(n));
      PackBodyLength(Ranks(src), PackBits(n));
      UnpackPack(Ranks(src), PackBits(n));
    }
  }

  /** The first loop of `encode_pack` over the frequencies: the rank of each present symbol, and their number. */
  method BuildLut(frequencies: seq<U32>) returns (lut: array<Byte>, n: nat)
    requires |frequencies| == 256
    ensures fresh(lut) && lut[..] == Lut(frequencies) && n == Rank(frequencies, 256)
  {
    lut := new Byte[256](_ => 0);
    n := 0;
    for sym := 0 to 256
      invariant n == Rank(frequencies, sym)
      invariant forall s :: 0 <= s < sym ==> lut[s] == Lut(frequencies)[s]
      invariant forall s :: sym <= s < 256 ==> lut[s] == 0
    {
      if frequencies[sym] > 0 {
        lut[sym] := n;
        n := n + 1;
      }
    }
  }

  /**
   * The inner loop of `encode_pack`: the `m` bytes of `src` from `pos`, their ranks or-ed into one
   * byte at `shift * bits`.
   */
  method PackChunk(src: seq<Byte>, lut: seq<Byte>, pos: nat, m: nat, bits: nat) returns (b: Byte)
    requires |lut| == 256
    requires (bits == 1 || bits == 2 || bits == 4) && m <= PerByte(bits) && pos + m <= |src|
    requires forall i :: 0 <= i < |src| ==> lut[src[i]] < Pow2(bits)
    ensures b == ChunkByte(Lookup(src, lut)[pos..pos + m], bits)
  {
    b := 0;
    var offset: nat := 0;
    for shift := 0 to m
      invariant offset == bits * shift
      invariant PackedChunk(src, lut, bits, pos, shift, b)
    {
      ChunkStep(src, lut, bits, pos, m, shift, b, offset);
      b := b + lut[src[pos + shift]] * Pow2(offset);
      offset := offset + bits;
    }
  }

  /** `b` holds the ranks of the `shift` bytes of `src` from `pos`, packed `bits` to a rank. */
  predicate PackedChunk(src: seq<Byte>, lut: seq<Byte>, bits: nat, pos: nat, shift: nat, b: int)
  {
    && |lut| == 256 && pos + shift <= |src|
    && (forall i :: 0 <= i < |src| ==> lut[src[i]] < Pow2(bits))
    && b == PackByte(Lookup(src, lut)[pos..pos + shift], bits)
  }

  /** Or-ing in the rank of the next byte of a chunk packs one more rank, and stays within a byte. */
  lemma ChunkStep(src: seq<Byte>, lut: seq<Byte>, bits: nat, pos: nat, m: nat, shift: nat, b: int, offset: nat)
    requires (bits == 1 || bits == 2 || bits == 4) && m <= PerByte(bits) && pos + m <= |src| && shift < m
    requires offset == bits * shift && PackedChunk(src, lut, bits, pos, shift, b)
    ensures 0 <= b + lut[src[pos + shift]] * Pow2(offset) < 256
    ensures PackedChunk(src, lut, bits, pos, shift + 1, b + lut[src[pos + shift]] * Pow2(offset))
    ensures offset + bits == bits * (shift + 1)
  {
    var ranks := Lookup(src, lut);
    assert ranks[pos + shift] == lut[src[pos + shift]];
    RankStep(ranks, bits, pos, m, shift, b, offset);
  }

  /** Adding the next rank of a chunk at its offset packs one more rank, and stays within a byte. */
  lemma RankStep(ranks: seq<nat>, bits: nat, pos: nat, m: nat, shift: nat, b: int, offset: nat)
    requires (bits == 1 || bits == 2 || bits == 4) && forall i :: 0 <= i < |ranks| ==> ranks[i] < Pow2(bits)
    requires m <= PerByte(bits) && pos + m <= |ranks| && shift < m
    requires offset == bits * shift && b == PackByte(ranks[pos..pos + shift], bits)
    ensures b + ranks[pos + shift] * Pow2(offset) == PackByte(ranks[pos..pos + shift + 1], bits) < 256
  {
    var c := ranks[pos..pos + shift + 1];
    assert c[..shift] == ranks[pos..pos + shift];
    assert c[shift] == ranks[pos + shift];
    assert PackByte(c, bits) == b + c[shift] * Pow2(offset);
    assert PackByte(c, bits) == ChunkByte(c, bits);
  }

  /**
   * One branch of `encode_pack`: `len / k + 1` zero bytes, then each chunk of `k = 8 / bits` bytes
   * of `src` packed into the next one.
   */
  method PackRanks(src: seq<Byte>, lut: seq<Byte>, bits: nat) returns (dst: seq<Byte>)
    requires |lut| == 256
    requires (bits == 1 || bits == 2 || bits == 4) && forall i :: 0 <= i < |src| ==> lut[src[i]] < Pow2(bits)
    ensures dst == PackBody(Lookup(src, lut), bits)
  {
    ghost var ranks := Lookup(src, lut);
    var k := PerByte(bits);
    var zeros := seq(|src| / k + 1, _ => 0);
    PackedStart(ranks, bits, zeros);
    var d, pos;
    dst, d, pos := PackChunks(src, lut, bits, zeros);
    // The last chunk is short: packed into the last byte, or absent, leaving it 0.
    if pos < |src| {
      var b := PackChunk(src, lut, pos, |src| - pos, bits);
      PackedLast(ranks, bits, dst, d, pos, b);
      dst := dst[d := b];
    } else {
      PackedLast(ranks, bits, dst, d, pos, 0);
    }
  }

  /** The whole chunks of `src`, each packed into the next byte of `dst`, which starts as zeros. */
  method PackChunks(src: seq<Byte>, lut: seq<Byte>, bits: nat, zeros: seq<Byte>)
    returns (dst: seq<Byte>, d: nat, pos: nat)
    requires |lut| == 256
    requires (bits == 1 || bits == 2 || bits == 4) && forall i :: 0 <= i < |src| ==> lut[src[i]] < Pow2(bits)
    requires PackedUpTo(Lookup(src, lut), bits, zeros, 0, 0)
    ensures PackedUpTo(Lookup(src, lut), bits, dst, d, pos) && |src| - pos < PerByte(bits)
  {
    ghost var ranks := Lookup(src, lut);
    var k := PerByte(bits);
    dst, d, pos := zeros, 0, 0;
    while |src| - pos >= k
      invariant PackedUpTo(ranks, bits, dst, d, pos)
      decreases |src| - pos
    {
      var b := PackChunk(src, lut, pos, k, bits);
      PackStep(ranks, bits, k, dst, d, pos, b);
      dst := dst[d := b];
      d := d + 1;
      pos := pos + k;
    }
  }

  /**
   * `dst` holds the packed chunks before `pos` in its first `d` bytes, and zeros after them, as
   * many as packing the rest takes.
   */
  predicate PackedUpTo(ranks: seq<nat>, bits: nat, dst: seq<Byte>, d: nat, pos: nat)
    requires (bits == 1 || bits == 2 || bits == 4) && forall i :: 0 <= i < |ranks| ==> ranks[i] < Pow2(bits)
  {
    && pos <= |ranks|
    && d + |PackBody(ranks[pos..], bits)| == |dst|
    && PackBody(ranks, bits) == dst[..d] + PackBody(ranks[pos..], bits)
    && forall j :: d <= j < |dst| ==> dst[j] == 0
  }

  /** The buffer of `len / k + 1` zeros, before anything is packed. */
  lemma PackedStart(ranks: seq<nat>, bits: nat, dst: seq<Byte>)
    requires (bits == 1 || bits == 2 || bits == 4) && forall i :: 0 <= i < |ranks| ==> ranks[i] < Pow2(bits)
    requires dst == seq(|ranks| / PerByte(bits) + 1, _ => 0)
    ensures PackedUpTo(ranks, bits, dst, 0, 0)
  {
    PackBodyLength(ranks, bits);
    assert ranks[0..] == ranks;
  }

  /** Packing a whole chunk into byte `d` moves on to the next chunk. */
  lemma PackStep(ranks: seq<nat>, bits: nat, k: nat, dst: seq<Byte>, d: nat, pos: nat, b: Byte)
    requires (bits == 1 || bits == 2 || bits == 4) && forall i :: 0 <= i < |ranks| ==> ranks[i] < Pow2(bits)
    requires k == PerByte(bits) && pos + k <= |ranks| && b == ChunkByte(ranks[pos..pos + k], bits)
    requires PackedUpTo(ranks, bits, dst, d, pos)
    ensures PackedUpTo(ranks, bits, dst[d := b], d + 1, pos + k)
  {
    PackBodyStep(ranks, bits, k, pos);
    var rest := PackBody(ranks[pos + k..], bits);
    var next := dst[d := b];
    assert next[..d + 1] == dst[..d] + [b];
    AppendAssoc(dst[..d], [b], rest);
    assert forall j :: d + 1 <= j < |next| ==> next[j] == dst[j];
  }

  lemma AppendAssoc(a: seq<Byte>, b: seq<Byte>, c: seq<Byte>)
    ensures (a + b) + c == a + (b + c)
  {
  }

  /** Packing from `pos` on, with a whole chunk left, is that chunk packed, then the rest. */
  lemma PackBodyStep(ranks: seq<nat>, bits: nat, k: nat, pos: nat)
    requires (bits == 1 || bits == 2 || bits == 4) && forall i :: 0 <= i < |ranks| ==> ranks[i] < Pow2(bits)
    requires k == PerByte(bits) && pos + k <= |ranks|
    ensures PackBody(ranks[pos..], bits)
      == [ChunkByte(ranks[pos..pos + k], bits)] + PackBody(ranks[pos + k..], bits)
  {
    assert ranks[pos..][..k] == ranks[pos..pos + k];
    assert ranks[pos..][k..] == ranks[pos + k..];
  }

  /** A short last chunk, or none, fills the last byte and completes the body. */
  lemma PackedLast(ranks: seq<nat>, bits: nat, dst: seq<Byte>, d: nat, pos: nat, b: Byte)
    requires (bits == 1 || bits == 2 || bits == 4) && forall i :: 0 <= i < |ranks| ==> ranks[i] < Pow2(bits)
    requires |ranks| < pos + PerByte(bits) && PackedUpTo(ranks, bits, dst, d, pos)
    requires b == ChunkByte(ranks[pos..pos + (|ranks| - pos)], bits)
    ensures d < |dst| && dst[d := b] == PackBody(ranks, bits)
    ensures pos == |ranks| ==> b == 0
  {
    assert ranks[pos..pos + (|ranks| - pos)] == ranks[pos..];
    assert dst[d := b] == dst[..d] + [b];
  }

  /**
   * `encode_pack`: count the bytes, rank the present ones, pack the ranks at the width their number
   * calls for, then write the header. Its counts are `i32`, so `src` is shorter than 2^31.
   */
  method EncodePack(src: seq<Byte>, writeUint7: U32 -> seq<Byte>) returns (r: Result<Packed, ErrorKind>)
    requires |src| < 0x8000_0000
    ensures r == Pack(src, writeUint7)
  {
    var frequencies := BuildFrequencies(src);
    var counts := frequencies[..];
    var table, n := BuildLut(counts);
    var lut := table[..];
    LutGivesRanks(src, lut, n);
    var buf: seq<Byte>;
    if n <= 1 {
      buf := [];
    } else if n <= 2 {
      buf := PackRanks(src, lut, 1);
    } else if n <= 4 {
      assert Pow2(2) == 4;
      buf := PackRanks(src, lut, 2);
    } else if n <= 16 {
      assert Pow2(4) == 16;
      buf := PackRanks(src, lut, 4);
    } else {
      return Err(InvalidInput);
    }
    var syms := ListSymbols(counts);
    var header := [n as Byte] + syms + writeUint7(|buf| % 0x1_0000_0000);
    r := Ok(Packed(header, buf));
    PackFromParts(src, writeUint7, buf);
  }

  /** Looking the bytes up in the table of ranks gives their ranks, each below the number of distinct bytes. */
  lemma LutGivesRanks(src: seq<Byte>, lut: seq<Byte>, n: nat)
    requires lut == Lut(Counts(src)) && n == Rank(Counts(src), 256)
    ensures Lookup(src, lut) == Ranks(src)
    ensures forall i :: 0 <= i < |src| ==> lut[src[i]] < n
  {
    forall i | 0 <= i < |src|
      ensures lut[src[i]] < n
    {
      RanksFindSymbols(src, i);
    }
  }

  /** The counted header and the packed ranks are what `Pack` returns. */
  lemma PackFromParts(src: seq<Byte>, writeUint7: U32 -> seq<Byte>, buf: seq<Byte>)
    requires forall i :: 0 <= i < |src| ==> Ranks(src)[i] < |Symbols(Counts(src), 256)|
    requires var n := |Symbols(Counts(src), 256)|;
      n <= 16 && (if n <= 1 then buf == [] else buf == PackBody(Ranks(src), PackBits(n)))
    ensures var syms := Symbols(Counts(src), 256);
      Pack(src, writeUint7) == Ok(Packed([|syms|] + syms + writeUint7(|buf| % 0x1_0000_0000), buf))
  {
  }

  /** The second loop of `encode_pack` over the frequencies: each present symbol, in ascending order. */
  method ListSymbols(frequencies: seq<U32>) returns (syms: seq<Byte>)
    requires |frequencies| == 256
    ensures syms == Symbols(frequencies, 256)
  {
    syms := [];
    for sym := 0 to 256
      invariant syms == Symbols(frequencies, sym)
    {
      if frequencies[sym] > 0 {
        syms := syms + [sym];
      }
    }
  }

  /**
   * 256 distinct bytes: as written `n` wraps to 0, so nothing is packed and the header claims no
   * symbols before listing 256 of them; counting without a bound gives InvalidInput.
   */
  lemma PackAsWrittenWraps(writeUint7: U32 -> seq<Byte>)
    ensures var src: seq<Byte> := seq(256, i => i);
      && PackAsWritten(src, writeUint7) == Ok(Packed([0] + src + writeUint7(0), []))
      && Pack(src, writeUint7) == Err(InvalidInput)
  {
    var src: seq<Byte> := seq(256, i => i);
    EveryByteOnce(src);
    assert Rank(Counts(src), 256) == 256;
    assert PackWith(src, 0, writeUint7) == Ok(Packed([0] + src + writeUint7(0), []));
  }

  /** The bytes of "noodles", the input of the tests at encode.rs:254-320. */
  const Noodles: seq<Byte> := [0x6e, 0x6f, 0x6f, 0x64, 0x6c, 0x65, 0x73]

  /** Absent symbols add nothing to the list. */
  lemma {:induction false} SymbolsSkip(counts: seq<int>, lo: nat, hi: nat)
    requires lo <= hi <= |counts| <= 256
    requires forall x :: lo <= x < hi ==> counts[x] <= 0
    ensures Symbols(counts, hi) == Symbols(counts, lo)
    decreases hi
  {
    if lo < hi {
      SymbolsSkip(counts, lo, hi - 1);
    }
  }

  /** Counts that are positive on d, e, l, n, o, s and nowhere else. */
  predicate SixPresent(counts: seq<int>)
  {
    && |counts| == 256
    && counts[0x64] > 0 && counts[0x65] > 0 && counts[0x6c] > 0
    && counts[0x6e] > 0 && counts[0x6f] > 0 && counts[0x73] > 0
    && forall x :: 0 <= x < 256 && x !in {0x64, 0x65, 0x6c, 0x6e, 0x6f, 0x73} ==> counts[x] <= 0
  }

  /** Below 'm' such counts list d, e, l, ranked 0 to 2. */
  lemma SixSymbolsLow(counts: seq<int>)
    requires SixPresent(counts)
    ensures Symbols(counts, 0x6d) == [0x64, 0x65, 0x6c]
    ensures Rank(counts, 0x64) == 0 && Rank(counts, 0x65) == 1 && Rank(counts, 0x6c) == 2
  {
    SymbolsSkip(counts, 0, 0x64);
    assert Symbols(counts, 0x66) == [0x64, 0x65];
    SymbolsSkip(counts, 0x66, 0x6c);
  }

  /** In all such counts list d, e, l, n, o, s, and n, o, s rank 3 to 5. */
  lemma SixSymbolsHigh(counts: seq<int>)
    requires SixPresent(counts)
    ensures Symbols(counts, 256) == [0x64, 0x65, 0x6c, 0x6e, 0x6f, 0x73]
    ensures Rank(counts, 0x6e) == 3 && Rank(counts, 0x6f) == 4 && Rank(counts, 0x73) == 5
  {
    SixSymbolsLow(counts);
    SymbolsSkip(counts, 0x6d, 0x6e);
    assert Symbols(counts, 0x70) == [0x64, 0x65, 0x6c, 0x6e, 0x6f];
    SymbolsSkip(counts, 0x70, 0x73);
    assert Symbols(counts, 0x74) == [0x64, 0x65, 0x6c, 0x6e, 0x6f, 0x73];
    SymbolsSkip(counts, 0x74, 256);
  }

  /** "noodles" holds d, e, l, n, o, s and nothing else: their list and their ranks. */
  lemma NoodlesSymbols(src: seq<Byte>)
    requires src == Noodles
    ensures var counts := Counts(src);
      && Symbols(counts, 256) == [0x64, 0x65, 0x6c, 0x6e, 0x6f, 0x73]
      && Rank(counts, 0x64) == 0 && Rank(counts, 0x65) == 1 && Rank(counts, 0x6c) == 2
      && Rank(counts, 0x6e) == 3 && Rank(counts, 0x6f) == 4 && Rank(counts, 0x73) == 5
  {
    var counts := Counts(src);
    assert src[3] in multiset(src) && src[5] in multiset(src);
    assert src[4] in multiset(src) && src[0] in multiset(src);
    assert src[1] in multiset(src) && src[6] in multiset(src);
    forall x | 0 <= x < 256 && x !in {0x64, 0x65, 0x6c, 0x6e, 0x6f, 0x73}
      ensures counts[x] <= 0
    {
      assert x as Byte !in src;
    }
    SixSymbolsLow(counts);
    SixSymbolsHigh(counts);
  }

  /** The table of "noodles" ranks its bytes n o o d l e s as 3 4 4 0 2 1 5. */
  lemma NoodlesLut(src: seq<Byte>)
    requires src == Noodles
    ensures var lut := Lut(Counts(src));
      && lut[src[0]] == 3 && lut[src[1]] == 4 && lut[src[2]] == 4 && lut[src[3]] == 0
      && lut[src[4]] == 2 && lut[src[5]] == 1 && lut[src[6]] == 5
  {
    NoodlesSymbols(src);
    assert src[3] in multiset(src) && src[5] in multiset(src);
    assert src[4] in multiset(src) && src[0] in multiset(src);
    assert src[1] in multiset(src) && src[6] in multiset(src);
    var lut := Lut(Counts(src));
    assert lut[0x64] == 0 && lut[0x65] == 1 && lut[0x6c] == 2;
    assert lut[0x6e] == 3 && lut[0x6f] == 4 && lut[0x73] == 5;
  }

  /** Seven bytes looked up one by one. */
  lemma LookupSeven(src: seq<Byte>, lut: seq<Byte>, ranks: seq<nat>)
    requires |lut| == 256 && |src| == 7 && |ranks| == 7
    requires lut[src[0]] == ranks[0] && lut[src[1]] == ranks[1] && lut[src[2]] == ranks[2]
    requires lut[src[3]] == ranks[3] && lut[src[4]] == ranks[4] && lut[src[5]] == ranks[5]
    requires lut[src[6]] == ranks[6]
    ensures Lookup(src, lut) == ranks
  {
    assert forall i :: 0 <= i < 7 ==> Lookup(src, lut)[i] == ranks[i] by {
      forall i | 0 <= i < 7
        ensures Lookup(src, lut)[i] == ranks[i]
      {
        if i == 0 {} else if i == 1 {} else if i == 2 {} else if i == 3 {} else if i == 4 {} else if i == 5 {}
      }
    }
  }

  /** The ranks of "noodles": n o o d l e s are 3 4 4 0 2 1 5. */
  lemma NoodlesRanks(src: seq<Byte>)
    requires src == Noodles
    ensures Ranks(src) == [3, 4, 4, 0, 2, 1, 5]
  {
    NoodlesLut(src);
    LookupSeven(src, Lut(Counts(src)), [3, 4, 4, 0, 2, 1, 5]);
  }

  /** Ranks 3 4 4 0 2 1 5 at 4 bits make the bytes 0x43 0x04 0x12 0x05: the first of each pair in the low half. */
  lemma NoodlesBody(ranks: seq<nat>)
    requires ranks == [3, 4, 4, 0, 2, 1, 5]
    ensures Pow2(4) == 16 && PackBody(ranks, 4) == [0x43, 0x04, 0x12, 0x05]
  {
    assert Pow2(4) == 16;
    var r2 := ranks[2..];
    var r4 := r2[2..];
    var r6 := r4[2..];
    assert ranks[..2] == [3, 4] && r2[..2] == [4, 0] && r4[..2] == [2, 1] && r6 == [5];
    assert PackByte([3, 4], 4) == 0x43;
    assert PackByte([4, 0], 4) == 0x04;
    assert PackByte([2, 1], 4) == 0x12;
    assert PackByte([5], 4) == 0x05;
    assert PackBody(r6, 4) == [0x05];
    assert PackBody(r4, 4) == [0x12, 0x05];
    assert PackBody(r2, 4) == [0x04, 0x12, 0x05];
  }

  /** The header of a packed input with the symbols d e l n o s and a 4-byte body. */
  lemma SixHeader(syms: seq<Byte>, writeUint7: U32 -> seq<Byte>)
    requires syms == [0x64, 0x65, 0x6c, 0x6e, 0x6f, 0x73] && writeUint7(4) == [0x04]
    ensures [6 as Byte] + syms + writeUint7(4) == [0x06, 0x64, 0x65, 0x6c, 0x6e, 0x6f, 0x73, 0x04]
  {
  }

  /** Any input whose symbols are d e l n o s and whose ranks are 3 4 4 0 2 1 5 packs as "noodles" does. */
  lemma PackOfRanks(src: seq<Byte>, writeUint7: U32 -> seq<Byte>)
    requires Symbols(Counts(src), 256) == [0x64, 0x65, 0x6c, 0x6e, 0x6f, 0x73]
    requires Ranks(src) == [3, 4, 4, 0, 2, 1, 5]
    requires writeUint7(4) == [0x04]
    ensures Pack(src, writeUint7)
      == Ok(Packed([0x06, 0x64, 0x65, 0x6c, 0x6e, 0x6f, 0x73, 0x04], [0x43, 0x04, 0x12, 0x05]))
  {
    var ranks := Ranks(src);
    NoodlesBody(ranks);
    assert forall i :: 0 <= i < |ranks| ==> ranks[i] < 6;
    assert Rank(Counts(src), 256) == 6;
    assert PackBits(6) == 4;
    SixHeader(Symbols(Counts(src), 256), writeUint7);
    assert Pack(src, writeUint7) == PackWith(src, 6, writeUint7);
  }

  /**
   * The test at encode.rs:305-320: "noodles" packs its six distinct bytes 4 bits a rank, two to a
   * byte, behind the header 6, d e l n o s, and the body length 4.
   */
  lemma PackExample(src: seq<Byte>, writeUint7: U32 -> seq<Byte>)
    requires src == Noodles && writeUint7(4) == [0x04]
    ensures Pack(src, writeUint7)
      == Ok(Packed([0x06, 0x64, 0x65, 0x6c, 0x6e, 0x6f, 0x73, 0x04], [0x43, 0x04, 0x12, 0x05]))
  {
    NoodlesSymbols(src);
    NoodlesRanks(src);
    PackOfRanks(src, writeUint7);
  }

  /** Each byte once: every symbol is present, and the list is the bytes in order. */
  lemma EveryByteOnce(src: seq<Byte>)
    requires src == seq(256, i => i)
    ensures Symbols(Counts(src), 256) == src
  {
    var counts := Counts(src);
    forall x | 0 <= x < 256
      ensures counts[x] > 0
    {
      assert src[x] == x;
      assert x in multiset(src);
    }
    AllPresent(counts, 256);
  }

  // The flag bits of the first byte, as the rANS Nx16 codec of the CRAM codecs specification defines them.
  const FlagOrder: Byte := 0x01
  const FlagN32: Byte := 0x04
  const FlagStripe: Byte := 0x08
  const FlagNoSize: Byte := 0x10
  const FlagCat: Byte := 0x20
  const FlagRle: Byte := 0x40
  const FlagPack: Byte := 0x80

  /** `flags.contains(flag)` for a one-bit flag. */
  predicate Has(flags: Byte, flag: Byte)
  {
    (flags as bv8) & (flag as bv8) != 0
  }

  /**
   * An entropy coder left out of this model (`order_0::encode` with `write_frequencies`, or
   * `order_1::encode` with `write_contexts`): given the bytes and the number of interleaved
   * states, the table then the compressed data, or an error.
   */
  type Coder = (seq<Byte>, nat) -> Result<seq<Byte>, ErrorKind>

  /**
   * What follows the headers: the (packed) bytes verbatim when CAT, else order-1 coded behind a
   * 0xC0 byte (12-bit frequencies, no compression of the table) when ORDER, else order-0 coded;
   * 32 interleaved states under N32, 4 without.
   */
  function CodedBody(flags: Byte, buf: seq<Byte>, order0: Coder, order1: Coder): Result<seq<Byte>, ErrorKind>
  {
    var states := if Has(flags, FlagN32) then 32 else 4;
    if Has(flags, FlagCat) then Ok(buf)
    else if Has(flags, FlagOrder) then
      match order1(buf, states)
      case Err(e) => Err(e)
      case Ok(coded) => Ok([0xC0] + coded)
    else order0(buf, states)
  }

  /**
   * `rans_encode_nx16` without striping or run-length encoding: the flags byte, the length as
   * uint7 unless NO_SIZE, the pack header when PACK, then the body of the packed bytes.
   */
  function EncodeNx16(flags: Byte, src: seq<Byte>, writeUint7: U32 -> seq<Byte>, order0: Coder, order1: Coder)
    : Result<seq<Byte>, ErrorKind>
    requires !Has(flags, FlagStripe) && !Has(flags, FlagRle)
  {
    if !Has(flags, FlagNoSize) && |src| >= 0x1_0000_0000 then Err(InvalidInput)
    else
      var head := [flags] + (if Has(flags, FlagNoSize) then [] else writeUint7(|src|));
      var packed := if Has(flags, FlagPack) then Pack(src, writeUint7) else Ok(Packed([], src));
      match packed
      case Err(e) => Err(e)
      case Ok(p) =>
        match CodedBody(flags, p.body, order0, order1)
        case Err(e) => Err(e)
        case Ok(body) => Ok(head + p.header + body)
  }

  /** `rans_encode_nx16`, writing into a growing buffer. */
  method RansEncodeNx16(flags: Byte, src: seq<Byte>, writeUint7: U32 -> seq<Byte>, order0: Coder, order1: Coder)
    returns (r: Result<seq<Byte>, ErrorKind>)
    requires !Has(flags, FlagStripe) && !Has(flags, FlagRle)
    requires Has(flags, FlagPack) ==> |src| < 0x8000_0000
    ensures r == EncodeNx16(flags, src, writeUint7, order0, order1)
  {
    var dst: seq<Byte> := [flags];
    if !Has(flags, FlagNoSize) {
      if |src| >= 0x1_0000_0000 {
        return Err(InvalidInput);
      }
      dst := dst + writeUint7(|src|);
    } else {
      assert dst == [flags] + [];
    }
    ghost var head := dst;
    var states := if Has(flags, FlagN32) then 32 else 4;
    var buf := src;
    var packHeader: Option<seq<Byte>> := None;
    if Has(flags, FlagPack) {
      var packed := EncodePack(src, writeUint7);
      if packed.Err? {
        return Err(packed.error);
      }
      packHeader := Some(packed.value.header);
      buf := packed.value.body;
    }
    if packHeader.Some? {
      dst := dst + packHeader.value;
    } else {
      assert dst == head + [];
    }
    if Has(flags, FlagCat) {
      dst := dst + buf;
    } else if Has(flags, FlagOrder) {
      var coded := order1(buf, states);
      if coded.Err? {
        return Err(coded.error);
      }
      AppendAssoc(dst, [0xC0], coded.value);
      dst := dst + [0xC0] + coded.value;
    } else {
      var coded := order0(buf, states);
      if coded.Err? {
        return Err(coded.error);
      }
      dst := dst + coded.value;
    }
    r := Ok(dst);
  }

  /**
   * The output starts with the flags byte, followed by the length as uint7 unless NO_SIZE; a
   * length that does not fit in 32 bits is InvalidInput unless NO_SIZE.
   */
  lemma EncodeNx16Prefix(flags: Byte, src: seq<Byte>, writeUint7: U32 -> seq<Byte>, order0: Coder, order1: Coder)
    requires !Has(flags, FlagStripe) && !Has(flags, FlagRle)
    ensures var r := EncodeNx16(flags, src, writeUint7, order0, order1);
      && (!Has(flags, FlagNoSize) && |src| >= 0x1_0000_0000 ==> r == Err(InvalidInput))
      && (r.Ok? ==> |r.value| >= 1 && r.value[0] == flags)
      && (r.Ok? && !Has(flags, FlagNoSize) ==>
            var size := writeUint7(|src|);
            |r.value| >= 1 + |size| && r.value[1..1 + |size|] == size)
  {
    var r := EncodeNx16(flags, src, writeUint7, order0, order1);
    if r.Ok? {
      var head := [flags] + (if Has(flags, FlagNoSize) then [] else writeUint7(|src|));
      var packed := if Has(flags, FlagPack) then Pack(src, writeUint7) else Ok(Packed([], src));
      var body := CodedBody(flags, packed.value.body, order0, order1).value;
      AppendAssoc(head, packed.value.header, body);
      assert r.value == head + (packed.value.header + body);
      assert r.value[0] == flags;
      if !Has(flags, FlagNoSize) {
        assert r.value[1..1 + |writeUint7(|src|)|] == writeUint7(|src|);
      }
    }
  }

  /**
   * CAT without PACK stores `src` verbatim after the flags and the length; with PACK the pack
   * header and the packed body follow instead.
   */
  lemma EncodeNx16Cat(flags: Byte, src: seq<Byte>, writeUint7: U32 -> seq<Byte>, order0: Coder, order1: Coder)
    requires !Has(flags, FlagStripe) && !Has(flags, FlagRle) && Has(flags, FlagCat)
    requires Has(flags, FlagNoSize) || |src| < 0x1_0000_0000
    ensures var size := if Has(flags, FlagNoSize) then [] else writeUint7(|src|);
      var r := EncodeNx16(flags, src, writeUint7, order0, order1);
      && (!Has(flags, FlagPack) ==> r == Ok([flags] + size + src))
      && (Has(flags, FlagPack) ==>
            match Pack(src, writeUint7)
            case Err(e) => r == Err(e)
            case Ok(p) => r == Ok([flags] + size + p.header + p.body))
  {
    var size := if Has(flags, FlagNoSize) then [] else writeUint7(|src|);
    assert [flags] + size + [] == [flags] + size;
  }

  /**
   * Without CAT or PACK the bytes go to the order-1 coder, behind a 0xC0 byte, when ORDER is set
   * and to the order-0 coder otherwise, with 32 interleaved states under N32 and 4 without; a
   * coder's error is passed on.
   */
  lemma EncodeNx16Coded(flags: Byte, src: seq<Byte>, writeUint7: U32 -> seq<Byte>, order0: Coder, order1: Coder)
    requires !Has(flags, FlagStripe) && !Has(flags, FlagRle) && !Has(flags, FlagCat) && !Has(flags, FlagPack)
    requires Has(flags, FlagNoSize) || |src| < 0x1_0000_0000
    ensures var size := if Has(flags, FlagNoSize) then [] else writeUint7(|src|);
      var states := if Has(flags, FlagN32) then 32 else 4;
      var r := EncodeNx16(flags, src, writeUint7, order0, order1);
      && (Has(flags, FlagOrder) ==>
            match order1(src, states)
            case Ok(coded) => r == Ok([flags] + size + [0xC0] + coded)
            case Err(e) => r == Err(e))
      && (!Has(flags, FlagOrder) ==>
            match order0(src, states)
            case Ok(coded) => r == Ok([flags] + size + coded)
            case Err(e) => r == Err(e))
  {
    var size := if Has(flags, FlagNoSize) then [] else writeUint7(|src|);
    var head := [flags] + size;
    var states := if Has(flags, FlagN32) then 32 else 4;
    assert head + [] == head;
    if Has(flags, FlagOrder) {
      var coded := order1(src, states);
      if coded.Ok? {
        AppendAssoc(head, [0xC0], coded.value);
      }
    }
  }

  /** The test at encode.rs:290-303: CAT stores "noodles" after `0x20` and its length 7. */
  lemma EncodeNx16CatExample(writeUint7: U32 -> seq<Byte>, order0: Coder, order1: Coder)
    requires writeUint7(7) == [0x07]
    ensures var noodles: seq<Byte> := [0x6e, 0x6f, 0x6f, 0x64, 0x6c, 0x65, 0x73];
      EncodeNx16(FlagCat, noodles, writeUint7, order0, order1) == Ok([0x20, 0x07] + noodles)
  {
    var noodles: seq<Byte> := [0x6e, 0x6f, 0x6f, 0x64, 0x6c, 0x65, 0x73];
    assert !Has(FlagCat, FlagNoSize) && !Has(FlagCat, FlagPack) && Has(FlagCat, FlagCat);
    assert !Has(FlagCat, FlagStripe) && !Has(FlagCat, FlagRle);
    EncodeNx16Cat(FlagCat, noodles, writeUint7, order0, order1);
    assert writeUint7(|noodles|) == [0x07];
    assert [FlagCat] + [0x07] + noodles == [0x20, 0x07] + noodles;
  }
}
