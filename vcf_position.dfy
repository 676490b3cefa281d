/** The POS column of a VCF data line: a decimal `usize`, where 0 is accepted. */
module VcfPosition {
  import opened Wrappers
  import RustNum

  datatype ParseError = Empty | Invalid

  /** `From<ParseIntError>`: only the Empty kind is kept apart; every other kind is Invalid. */
  function FromIntError(kind: RustNum.IntErrorKind): (e: ParseError)
    ensures e == Empty <==> kind == RustNum.Empty
  {
    match kind
    case Empty => Empty
    case _ => Invalid
  }

  /** `parse_position`: `s.parse::<usize>()` with the error mapped as above. */
  function ParsePosition(s: string): (r: Result<nat, ParseError>)
    ensures r == Err(Empty) <==> s == []
    ensures r.Ok? ==> r.value <= RustNum.USIZE_MAX
  {
    match RustNum.ParseUnsigned(s, RustNum.USIZE_MAX)
    case Ok(n) => Ok(n)
    case Err(kind) => Err(FromIntError(kind))
  }

  /**
   * The accepted inputs are exactly the decimal numerals (after an optional '+') whose value
   * fits in a `usize`, and the position is that value.
   */
  lemma ParsePositionDigits(s: string)
    ensures ParsePosition(s).Ok? <==>
      (var t := RustNum.Unsigned(s); t != [] && RustNum.AllDigits(t) && RustNum.DigitsValue(t) <= RustNum.USIZE_MAX)
    ensures ParsePosition(s).Ok? ==> ParsePosition(s).value == RustNum.DigitsValue(RustNum.Unsigned(s))
  {
    RustNum.ParseUnsignedOk(s, RustNum.USIZE_MAX);
  }

  /** Every position a `usize` can hold is read back from its decimal text. */
  lemma ParsePositionRoundTrip(n: nat)
    requires n <= RustNum.USIZE_MAX
    ensures ParsePosition(RustNum.NatToString(n)) == Ok(n)
  {
    RustNum.ParseNatToString(n, RustNum.USIZE_MAX);
  }

  /** The inputs of the unit tests at position.rs:52-58. */
  lemma ParsePositionExamples()
    ensures ParsePosition("0") == Ok(0) && ParsePosition("8") == Ok(8)
    ensures ParsePosition("") == Err(Empty)
    ensures ParsePosition(".") == Err(Invalid) && ParsePosition("ndls") == Err(Invalid)
    ensures ParsePosition("-1") == Err(Invalid)
  {
    assert RustNum.ScanDigits("0", 0, RustNum.USIZE_MAX) == Ok(0);
    assert RustNum.ScanDigits("8", 0, RustNum.USIZE_MAX) == Ok(8);
  }
}
