/** The VCF version named by the `##fileformat` header line, such as "VCFv4.3". */
module VcfFileFormat {
  import opened Wrappers
  import RustNum

  /** Major and minor version, each a `u32`; the derived order compares major first. */
  datatype FileFormat = FileFormat(major: nat, minor: nat)

  predicate ValidFileFormat(f: FileFormat)
  {
    f.major <= RustNum.U32_MAX && f.minor <= RustNum.U32_MAX
  }

  const Prefix: string := "VCFv"

  /** The version written when none is given: 4.4. */
  const Default: FileFormat := FileFormat(4, 4)

  /** The derived `Ord`: lexicographic on (major, minor). */
  predicate Le(a: FileFormat, b: FileFormat)
  {
    a.major < b.major || (a.major == b.major && a.minor <= b.minor)
  }

  lemma LeTotalOrder(a: FileFormat, b: FileFormat, c: FileFormat)
    ensures Le(a, a)
    ensures Le(a, b) || Le(b, a)
    ensures Le(a, b) && Le(b, a) ==> a == b
    ensures Le(a, b) && Le(b, c) ==> Le(a, c)
  {
  }

  /** `Display`: the prefix, the major version, '.', the minor version. */
  function Display(f: FileFormat): (s: string)
    ensures |s| > |Prefix| && s[..|Prefix|] == Prefix
  {
    Prefix + RustNum.NatToString(f.major) + "." + RustNum.NatToString(f.minor)
  }

  datatype ParseError =
    | Empty
    | InvalidPrefix
    | MissingMajorVersion
    | InvalidMajorVersion(kind: RustNum.IntErrorKind)
    | MissingMinorVersion
    | InvalidMinorVersion(kind: RustNum.IntErrorKind)

  /**
   * `splitn(2, '.')`: the text before the first '.', and the whole text after it when there is
   * one. Later dots stay in the second component.
   */
  function SplitFirstDot(s: string): (r: (string, Option<string>))
    ensures r.1.None? ==> r.0 == s && '.' !in s
    ensures r.1.Some? ==> s == r.0 + "." + r.1.value && '.' !in r.0
  {
    if s == [] then (s, None)
    else if s[0] == '.' then ([], Some(s[1..]))
    else
      var (head, tail) := SplitFirstDot(s[1..]);
      ([s[0]] + head, tail)
  }

  /** `from_str`. */
  function Parse(s: string): (r: Result<FileFormat, ParseError>)
    ensures r == Err(Empty) <==> s == []
    ensures r == Err(InvalidPrefix) <==> s != [] && !(|s| >= |Prefix| && s[..|Prefix|] == Prefix)
    ensures r == Err(MissingMajorVersion) <==> s == Prefix
    ensures r.Ok? ==> ValidFileFormat(r.value)
  {
    if s == [] then Err(Empty)
    else if !(|s| >= |Prefix| && s[..|Prefix|] == Prefix) then Err(InvalidPrefix)
    else
      var raw := s[|Prefix|..];
      if raw == [] then Err(MissingMajorVersion)
      else
        var (majorText, minorText) := SplitFirstDot(raw);
        match RustNum.ParseUnsigned(majorText, RustNum.U32_MAX)
        case Err(e) => Err(InvalidMajorVersion(e))
        case Ok(major) =>
          match minorText
          case None => Err(MissingMinorVersion)
          case Some(t) =>
            match RustNum.ParseUnsigned(t, RustNum.U32_MAX)
            case Err(e) => Err(InvalidMinorVersion(e))
            case Ok(minor) => Ok(FileFormat(major, minor))
  }

  lemma DigitsHaveNoDot(s: string)
    requires RustNum.AllDigits(s)
    ensures '.' !in s
  {
  }

  /** The minor version is everything after the first '.', so a dotted remainder is one number. */
  lemma {:induction false} SplitAtFirstDot(a: string, b: string)
    requires '.' !in a
    ensures SplitFirstDot(a + "." + b) == (a, Some(b))
  {
    if a == [] {
      assert a + "." + b == ['.'] + b;
    } else {
      assert (a + "." + b)[1..] == a[1..] + "." + b;
      SplitAtFirstDot(a[1..], b);
      assert [a[0]] + a[1..] == a;
    }
  }

  /** Every valid version survives a display-then-parse round trip. */
  lemma ParseDisplay(f: FileFormat)
    requires ValidFileFormat(f)
    ensures Parse(Display(f)) == Ok(f)
  {
    var major := RustNum.NatToString(f.major);
    var minor := RustNum.NatToString(f.minor);
    var s := Display(f);
    assert s[|Prefix|..] == major + "." + minor;
    DigitsHaveNoDot(major);
    SplitAtFirstDot(major, minor);
    RustNum.ParseNatToString(f.major, RustNum.U32_MAX);
    RustNum.ParseNatToString(f.minor, RustNum.U32_MAX);
  }

  /** The unit-test inputs at file_format.rs:164-193, and a version with two dots. */
  lemma ParseExamples()
    ensures Parse("VCFv4.3") == Ok(FileFormat(4, 3))
    ensures Parse("4.3") == Err(InvalidPrefix) && Parse("NDLv4.3") == Err(InvalidPrefix)
    ensures Parse("VCFv") == Err(MissingMajorVersion)
    ensures Parse("VCFvx").Err? && Parse("VCFvx").error.InvalidMajorVersion?
    ensures Parse("VCFv4") == Err(MissingMinorVersion)
    ensures Parse("VCFv4.x").Err? && Parse("VCFv4.x").error.InvalidMinorVersion?
    ensures Parse("VCFv4.3.1") == Err(InvalidMinorVersion(RustNum.InvalidDigit))
  {
    assert "VCFv4.3"[4..] == "4.3";
    assert "NDLv4.3"[..4] == "NDLv";
    SplitAtFirstDot("4", "3");
    assert "4" + "." + "3" == "4.3";
    assert "VCFvx"[4..] == "x";
    assert "VCFv4"[4..] == "4";
    assert "VCFv4.x"[4..] == "4.x";
    SplitAtFirstDot("4", "x");
    assert "4" + "." + "x" == "4.x";
    assert "VCFv4.3.1"[4..] == "4.3.1";
    SplitAtFirstDot("4", "3.1");
    assert "4" + "." + "3.1" == "4.3.1";
    assert RustNum.ScanDigits("3.1", 0, RustNum.U32_MAX) == Err(RustNum.InvalidDigit);
  }
}
