/**
 * Rust's `str::parse` for unsigned integers in base 10 and the decimal rendering
 * of `Display` for integers. Several parsers in the model delegate to these.
 */
module RustNum {
  import opened Wrappers

  /** The kinds of `ParseIntError` an unsigned parse can report. */
  datatype IntErrorKind = Empty | InvalidDigit | PosOverflow

  /** A `u8`. */
  type Byte = b: int | 0 <= b < 0x100

  /** A `u32`. */
  type U32 = n: int | 0 <= n < 0x1_0000_0000

  /** `u32::from_le_bytes`. */
  function LeU32(b0: Byte, b1: Byte, b2: Byte, b3: Byte): U32
  {
    b0 + 0x100 * b1 + 0x1_0000 * b2 + 0x100_0000 * b3
  }

  const U8_MAX: nat := 0xFF
  const U16_MAX: nat := 0xFFFF
  const U32_MAX: nat := 0xFFFF_FFFF
  const USIZE_MAX: nat := 0xFFFF_FFFF_FFFF_FFFF

  predicate IsDigit(c: char) { '0' <= c <= '9' }

  predicate AllDigits(s: string) { forall i :: 0 <= i < |s| ==> IsDigit(s[i]) }

  function DigitValue(c: char): (d: nat)
    requires IsDigit(c)
    ensures d < 10
  {
    c as int - '0' as int
  }

  function DigitChar(d: nat): (c: char)
    requires d < 10
    ensures IsDigit(c) && DigitValue(c) == d
  {
    ('0' as int + d) as char
  }

  /** The value a string of decimal digits denotes, read most significant digit first. */
  function DigitsValue(s: string): nat
    requires AllDigits(s)
  {
    if s == [] then 0 else 10 * DigitsValue(s[..|s| - 1]) + DigitValue(s[|s| - 1])
  }

  /**
   * The digit loop of `from_str_radix`: digits are consumed from the left; a character that
   * is not a digit is InvalidDigit and a value above `max` is PosOverflow, whichever comes first.
   */
  function ScanDigits(s: string, acc: nat, max: nat): Result<nat, IntErrorKind>
  {
    if s == [] then Ok(acc)
    else if !IsDigit(s[0]) then Err(InvalidDigit)
    else if acc * 10 + DigitValue(s[0]) > max then Err(PosOverflow)
    else ScanDigits(s[1..], acc * 10 + DigitValue(s[0]), max)
  }

  /**
   * `s.parse::<uN>()` where `max` is the type's largest value: empty input is Empty, a lone sign
   * is InvalidDigit, one leading '+' is skipped, and '-' is an invalid digit for unsigned types.
   */
  function ParseUnsigned(s: string, max: nat): (r: Result<nat, IntErrorKind>)
    ensures r == Err(Empty) <==> s == []
    ensures r.Ok? ==> r.value <= max
  {
    if s == [] then Err(Empty)
    else if (s[0] == '+' || s[0] == '-') && |s| == 1 then Err(InvalidDigit)
    else if s[0] == '+' then ScanBound(s[1..], 0, max); ScanDigits(s[1..], 0, max)
    else ScanBound(s, 0, max); ScanDigits(s, 0, max)
  }

  /** The text after one optional leading '+', which is where the digits must be. */
  function Unsigned(s: string): string
  {
    if s != [] && s[0] == '+' then s[1..] else s
  }

  lemma {:induction false} ScanBound(s: string, acc: nat, max: nat)
    ensures ScanDigits(s, acc, max) != Err(Empty)
    ensures acc <= max && ScanDigits(s, acc, max).Ok? ==> ScanDigits(s, acc, max).value <= max
  {
    if s != [] && IsDigit(s[0]) && acc * 10 + DigitValue(s[0]) <= max {
      ScanBound(s[1..], acc * 10 + DigitValue(s[0]), max);
    }
  }

  /** The accumulator the digit loop ends with, starting from `acc`, when nothing overflows. */
  function FoldDigits(acc: nat, s: string): nat
    requires AllDigits(s)
    decreases |s|
  {
    if s == [] then acc else FoldDigits(acc * 10 + DigitValue(s[0]), s[1..])
  }

  lemma {:induction false} FoldDigitsSnoc(acc: nat, s: string)
    requires s != [] && AllDigits(s)
    ensures FoldDigits(acc, s) == 10 * FoldDigits(acc, s[..|s| - 1]) + DigitValue(s[|s| - 1])
    decreases |s|
  {
    if |s| > 1 {
      var t := s[1..];
      FoldDigitsSnoc(acc * 10 + DigitValue(s[0]), t);
      assert t[..|t| - 1] == s[..|s| - 1][1..];
      assert s[..|s| - 1][0] == s[0] && t[|t| - 1] == s[|s| - 1];
    } else {
      assert s[..0] == [] && s[1..] == [];
    }
  }

  /** Folding from the left gives the value the digits denote. */
  lemma {:induction false} FoldDigitsValue(s: string)
    requires AllDigits(s)
    ensures FoldDigits(0, s) == DigitsValue(s)
    decreases |s|
  {
    if s != [] {
      FoldDigitsSnoc(0, s);
      FoldDigitsValue(s[..|s| - 1]);
    }
  }

  lemma {:induction false} FoldDigitsAtLeast(acc: nat, s: string)
    requires AllDigits(s)
    ensures FoldDigits(acc, s) >= acc
    decreases |s|
  {
    if s != [] {
      FoldDigitsAtLeast(acc * 10 + DigitValue(s[0]), s[1..]);
    }
  }

  lemma {:induction false} ScanDigitsValue(s: string, acc: nat, max: nat)
    requires AllDigits(s) && acc <= max
    ensures var total := FoldDigits(acc, s);
      ScanDigits(s, acc, max) == if total <= max then Ok(total) else Err(PosOverflow)
  {
    if s != [] {
      var next := acc * 10 + DigitValue(s[0]);
      if next <= max {
        ScanDigitsValue(s[1..], next, max);
      } else {
        FoldDigitsAtLeast(next, s[1..]);
      }
    }
  }

  lemma {:induction false} ScanFindsNonDigit(s: string, acc: nat, max: nat)
    requires !AllDigits(s)
    ensures ScanDigits(s, acc, max).Err?
  {
    if IsDigit(s[0]) && acc * 10 + DigitValue(s[0]) <= max {
      assert !AllDigits(s[1..]) by {
        var i :| 0 <= i < |s| && !IsDigit(s[i]);
        assert s[1..][i - 1] == s[i];
      }
      ScanFindsNonDigit(s[1..], acc * 10 + DigitValue(s[0]), max);
    }
  }

  /**
   * The parse succeeds exactly on a non-empty run of decimal digits, after an optional '+',
   * whose value fits in the type; the value is then the one the digits denote.
   */
  lemma ParseUnsignedOk(s: string, max: nat)
    ensures ParseUnsigned(s, max).Ok? <==>
      (var t := Unsigned(s); t != [] && AllDigits(t) && DigitsValue(t) <= max)
    ensures ParseUnsigned(s, max).Ok? ==> ParseUnsigned(s, max).value == DigitsValue(Unsigned(s))
  {
    var t := Unsigned(s);
    if s != [] && !((s[0] == '+' || s[0] == '-') && |s| == 1) {
      if AllDigits(t) {
        ScanDigitsValue(t, 0, max);
        FoldDigitsValue(t);
      } else {
        ScanFindsNonDigit(t, 0, max);
      }
    }
  }

  /** `Display` for a non-negative integer: its decimal digits without leading zeros. */
  function NatToString(n: nat): (s: string)
    ensures s != [] && AllDigits(s) && DigitsValue(s) == n
    ensures s[0] != '+'
  {
    if n < 10 then [DigitChar(n)]
    else
      var init := NatToString(n / 10);
      var s := init + [DigitChar(n % 10)];
      assert s[..|s| - 1] == init;
      s
  }

  /** `Display` for a signed integer: a '-' before the digits of its magnitude when negative. */
  function IntToString(i: int): (s: string)
    ensures s != []
    ensures i >= 0 ==> s == NatToString(i)
    ensures i < 0 ==> s == "-" + NatToString(-i)
  {
    if i < 0 then "-" + NatToString(-i) else NatToString(i)
  }

  /** Rendering a value in range and parsing it back gives the value again. */
  lemma ParseNatToString(n: nat, max: nat)
    requires n <= max
    ensures ParseUnsigned(NatToString(n), max) == Ok(n)
  {
    ParseUnsignedOk(NatToString(n), max);
  }
}
