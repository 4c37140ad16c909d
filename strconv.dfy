/** Lenient string conversions of pkg/utils/strconv.go.

    Each Go function is one call into the standard strconv package with a
    fallback value on error. The decimal grammar accepted by strconv.ParseInt
    with base 10 is modelled by ParseDecimal: an optional '+' or '-' followed
    by one or more ASCII digits, with no surrounding whitespace and no
    underscores. Go's `int` is taken to be 64 bits wide. */
module StrConv {
  import opened Common

  const Int64Min: int := -0x8000_0000_0000_0000
  const Int64Max: int := 0x7FFF_FFFF_FFFF_FFFF
  const Int8Min: int := -128
  const Int8Max: int := 127

  predicate IsDigit(c: char) {
    '0' <= c <= '9'
  }

  predicate AllDigits(s: string) {
    forall i :: 0 <= i < |s| ==> IsDigit(s[i])
  }

  /** Value of a non-empty run of decimal digits, most significant first. */
  function DigitsValue(ds: string): nat
    requires AllDigits(ds)
    decreases |ds|
  {
    if ds == [] then 0
    else DigitsValue(ds[..|ds| - 1]) * 10 + (ds[|ds| - 1] as int - '0' as int)
  }

  /** The base-10 grammar of strconv.ParseInt, without the range check. */
  function ParseDecimal(s: string): Option<int> {
    if |s| > 0 && (s[0] == '+' || s[0] == '-') then
      var ds := s[1..];
      if |ds| > 0 && AllDigits(ds) then
        var v: int := DigitsValue(ds);
        Some(if s[0] == '-' then -v else v)
      else None
    else if |s| > 0 && AllDigits(s) then Some(DigitsValue(s))
    else None
  }

  /** strconv.ParseInt(s, 10, bitSize) for the two sizes the source uses;
      None stands for the syntax and range errors. */
  function ParseInt(s: string, bitSize: nat): (r: Option<int>)
    requires bitSize == 8 || bitSize == 64
    ensures r.Some? ==> ParseDecimal(s) == r
    ensures r.Some? && bitSize == 8 ==> Int8Min <= r.value <= Int8Max
    ensures r.Some? && bitSize == 64 ==> Int64Min <= r.value <= Int64Max
    ensures bitSize == 8 && ParseDecimal(s).Some? && Int8Min <= ParseDecimal(s).value <= Int8Max ==> r == ParseDecimal(s)
    ensures bitSize == 64 && ParseDecimal(s).Some? && Int64Min <= ParseDecimal(s).value <= Int64Max ==> r == ParseDecimal(s)
  {
    var lo := if bitSize == 8 then Int8Min else Int64Min;
    var hi := if bitSize == 8 then Int8Max else Int64Max;
    match ParseDecimal(s)
    case Some(v) => if lo <= v <= hi then Some(v) else None
    case None => None
  }

  /** Atoi / atoi (strconv.go:5-15): strconv.Atoi, 0 on error. Go's int
      is 64 bits wide on 64-bit targets, where strconv.Atoi parses exactly
      as strconv.ParseInt(s, 10, 64) does, so this is atoi64. */
  function Atoi(s: string): int {
    Atoi64(s)
  }

  /** atoi64 (strconv.go:17-23): strconv.ParseInt(s, 10, 64), 0 on error. */
  function Atoi64(s: string): (r: int)
    ensures Int64Min <= r <= Int64Max
    ensures ParseDecimal(s).Some? && Int64Min <= ParseDecimal(s).value <= Int64Max ==> r == ParseDecimal(s).value
    ensures ParseDecimal(s).Some? && !(Int64Min <= ParseDecimal(s).value <= Int64Max) ==> r == 0
    ensures ParseDecimal(s).None? ==> r == 0
  {
    ParseInt(s, 64).GetOr(0)
  }

  /** atoui8 (strconv.go:25-31): strconv.ParseInt(s, 10, 8), 0 on error,
      then the conversion uint8(...) which keeps the low 8 bits. */
  function Atoui8(s: string): (r: int)
    ensures 0 <= r < 256
    ensures ParseDecimal(s).Some? && Int8Min <= ParseDecimal(s).value <= Int8Max ==> r == ParseDecimal(s).value % 256
    ensures ParseDecimal(s).Some? && !(Int8Min <= ParseDecimal(s).value <= Int8Max) ==> r == 0
    ensures ParseDecimal(s).None? ==> r == 0
  {
    ParseInt(s, 8).GetOr(0) % 256
  }

  /** Leading zeros do not change the value of a digit run. */
  lemma {:induction false} DigitsValueLeadingZero(ds: string)
    requires AllDigits(ds)
    ensures AllDigits("0" + ds) && DigitsValue("0" + ds) == DigitsValue(ds)
    decreases |ds|
  {
    var z := "0" + ds;
    assert AllDigits(z) by {
      forall i | 0 <= i < |z| ensures IsDigit(z[i]) {
        if i > 0 { assert z[i] == ds[i - 1]; }
      }
    }
    if ds != [] {
      var init := ds[..|ds| - 1];
      assert z[..|z| - 1] == "0" + init;
      assert z[|z| - 1] == ds[|ds| - 1];
      DigitsValueLeadingZero(init);
    }
  }

  /** A digit run parses to its value. */
  lemma DigitsParse(ds: string)
    requires |ds| > 0 && AllDigits(ds)
    ensures ParseDecimal(ds) == Some(DigitsValue(ds))
  {
    assert IsDigit(ds[0]);
  }

  /** Leading zeros are accepted and do not change the value. */
  lemma LeadingZeroSpelling(ds: string)
    requires |ds| > 0 && AllDigits(ds)
    ensures ParseDecimal("0" + ds) == ParseDecimal(ds)
  {
    DigitsParse(ds);
    DigitsValueLeadingZero(ds);
    DigitsParse("0" + ds);
  }

  /** An explicit '+' gives the plain value. */
  lemma PlusSpelling(ds: string)
    requires |ds| > 0 && AllDigits(ds)
    ensures ParseDecimal("+" + ds) == ParseDecimal(ds)
  {
    DigitsParse(ds);
    var p := "+" + ds;
    assert p[0] == '+' && p[1..] == ds;
  }

  /** A '-' negates the value, so "-0" and "-00" are zero. */
  lemma MinusSpelling(ds: string)
    requires |ds| > 0 && AllDigits(ds)
    ensures var v: int := DigitsValue(ds); ParseDecimal("-" + ds) == Some(-v)
  {
    var m := "-" + ds;
    assert m[0] == '-' && m[1..] == ds;
  }

  /** atoi64 reads "+ds", "0ds" and "ds" alike, and "-ds" as the negation,
      for any digit run within the int64 range. */
  lemma Atoi64Spellings(ds: string)
    requires |ds| > 0 && AllDigits(ds) && DigitsValue(ds) <= Int64Max
    ensures Atoi64(ds) == Atoi64("0" + ds) == Atoi64("+" + ds) == DigitsValue(ds)
    ensures Atoi64("-" + ds) == -(DigitsValue(ds) as int)
  {
    DigitsParse(ds);
    LeadingZeroSpelling(ds);
    PlusSpelling(ds);
    MinusSpelling(ds);
  }

  /** The value strconv.ParseInt(s, 10, 64) returns next to its error, for
      callers that discard the error: the nearest bound on a range error and
      0 on a syntax error. */
  function ParseInt64Value(s: string): (r: int)
    ensures Int64Min <= r <= Int64Max
  {
    match ParseDecimal(s)
    case None => 0
    case Some(v) => if v > Int64Max then Int64Max else if v < Int64Min then Int64Min else v
  }

  /** Discarding ParseInt's error differs from atoi64 exactly on
      well-formed numbers outside the int64 range, which saturate instead
      of becoming 0. */
  lemma ParseInt64ValueVersusAtoi64(s: string)
    ensures ParseInt(s, 64).Some? || ParseDecimal(s).None? ==> ParseInt64Value(s) == Atoi64(s)
    ensures ParseDecimal(s).Some? && ParseDecimal(s).value > Int64Max ==> ParseInt64Value(s) == Int64Max && Atoi64(s) == 0
    ensures ParseDecimal(s).Some? && ParseDecimal(s).value < Int64Min ==> ParseInt64Value(s) == Int64Min && Atoi64(s) == 0
  {
  }

  /** strconv.ParseBool: None stands for the syntax error. */
  function ParseBool(s: string): Option<bool> {
    if s in {"1", "t", "T", "TRUE", "true", "True"} then Some(true)
    else if s in {"0", "f", "F", "FALSE", "false", "False"} then Some(false)
    else None
  }

  /** Atob / atob (strconv.go:33-43): the parsed bool, false on error. */
  function Atob(s: string): (r: bool)
    ensures r <==> ParseBool(s) == Some(true)
  {
    ParseBool(s).GetOr(false)
  }

  // ---------------------------------------------------------------------
  // Reference formatting (strconv.Itoa, strconv.FormatBool), used as the
  // partner of the parsers above.

  function DigitChar(d: nat): (c: char)
    requires d < 10
    ensures IsDigit(c) && c as int - '0' as int == d
  {
    ('0' as int + d) as char
  }

  function FormatNat(n: nat): (s: string)
    ensures |s| > 0 && AllDigits(s)
  {
    if n < 10 then [DigitChar(n)] else FormatNat(n / 10) + [DigitChar(n % 10)]
  }

  function FormatInt(n: int): string {
    if n < 0 then "-" + FormatNat(-n) else FormatNat(n)
  }

  function FormatBool(b: bool): string {
    if b then "true" else "false"
  }

  lemma {:induction false} DigitsValueOfFormatNat(n: nat)
    ensures DigitsValue(FormatNat(n)) == n
  {
    if n >= 10 {
      DigitsValueOfFormatNat(n / 10);
      var s := FormatNat(n);
      assert s[..|s| - 1] == FormatNat(n / 10);
    }
  }

  /** Every decimal rendering parses back to its value. */
  lemma ParseDecimalFormatInt(n: int)
    ensures ParseDecimal(FormatInt(n)) == Some(n)
  {
    if n < 0 {
      DigitsValueOfFormatNat(-n);
      assert FormatInt(n)[1..] == FormatNat(-n);
    } else {
      DigitsValueOfFormatNat(n);
      assert IsDigit(FormatNat(n)[0]);
    }
  }

  /** Atoi inverts strconv.Itoa over the whole int range. */
  lemma AtoiFormatRoundTrip(n: int)
    requires Int64Min <= n <= Int64Max
    ensures Atoi(FormatInt(n)) == n && Atoi64(FormatInt(n)) == n
  {
    ParseDecimalFormatInt(n);
  }

  /** A well-formed number outside the int range is indistinguishable from "0". */
  lemma AtoiOverflowIsZero(n: int)
    requires n < Int64Min || n > Int64Max
    ensures Atoi(FormatInt(n)) == 0 && Atoi64(FormatInt(n)) == 0
    ensures Atoi(FormatInt(n)) == Atoi("0")
  {
    ParseDecimalFormatInt(n);
    ParseDecimalFormatInt(0);
  }

  /** Empty input and input with surrounding whitespace also give 0. */
  lemma AtoiRejectsBlanks(s: string)
    ensures Atoi("") == 0
    ensures Atoi(" " + s) == 0 && Atoi(s + " ") == 0
  {
    var t := s + " ";
    if |t| > 0 && (t[0] == '+' || t[0] == '-') {
      assert !IsDigit(t[1..][|t| - 2]);
    } else {
      assert !IsDigit(t[|t| - 1]);
    }
  }

  /** atoui8 keeps in-range values modulo 256 and maps out-of-range ones to 0. */
  lemma Atoui8OfFormatInt(n: int)
    ensures Int8Min <= n <= Int8Max ==> Atoui8(FormatInt(n)) == n % 256
    ensures 0 <= n <= Int8Max ==> Atoui8(FormatInt(n)) == n
    ensures Int8Min <= n < 0 ==> Atoui8(FormatInt(n)) == n + 256
    ensures (n < Int8Min || n > Int8Max) ==> Atoui8(FormatInt(n)) == 0
  {
    ParseDecimalFormatInt(n);
  }

  lemma Atoui8Examples()
    ensures Atoui8("-1") == 255 && Atoui8("200") == 0 && Atoui8("127") == 127
  {
    Atoui8OfFormatInt(-1);
    Atoui8OfFormatInt(200);
    Atoui8OfFormatInt(127);
    assert FormatInt(-1) == "-1";
    assert FormatInt(200) == "200" by {
      assert FormatNat(20) == "20";
    }
    assert FormatInt(127) == "127" by {
      assert FormatNat(12) == "12";
    }
  }

  /** Atob is true on exactly six spellings. */
  lemma AtobTrueSpellings(s: string)
    ensures Atob(s) <==> s in {"1", "t", "T", "TRUE", "true", "True"}
  {
  }

  /** ParseBool inverts strconv.FormatBool, so Atob does too. */
  lemma AtobFormatBool(b: bool)
    ensures ParseBool(FormatBool(b)) == Some(b) && Atob(FormatBool(b)) == b
  {
  }
}
