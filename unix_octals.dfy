/** The digit table and the mode-text normalisers of `unix_perms/octals.py`. */
module UnixOctals {
  import opened Numerals
  import opened OctalTypes

  /** `VALID_OCTAL_MODE_BITS`: the characters '0'..'7'. */
  const ValidOctalModeBits: set<char> := {'0', '1', '2', '3', '4', '5', '6', '7'}

  const OctalModeBit0 := OctalConfig("No permissions", false, false, false)
  const OctalModeBit1 := OctalConfig("Execute permission only", false, false, true)
  const OctalModeBit2 := OctalConfig("Write permission only", false, true, false)
  const OctalModeBit3 := OctalConfig("Write and execute permissions", false, true, true)
  const OctalModeBit4 := OctalConfig("Read permission only", true, false, false)
  const OctalModeBit5 := OctalConfig("Read and execute permissions", true, false, true)
  const OctalModeBit6 := OctalConfig("Read and write permissions", true, true, false)
  const OctalModeBit7 := OctalConfig("Read, write, and execute permissions", true, true, true)

  /** `OCTAL_BIT_CONFIGURATIONS`: the digit table. */
  const OctalBitConfigurations: map<int, OctalConfig> := map[
    0 := OctalModeBit0, 1 := OctalModeBit1, 2 := OctalModeBit2, 3 := OctalModeBit3,
    4 := OctalModeBit4, 5 := OctalModeBit5, 6 := OctalModeBit6, 7 := OctalModeBit7
  ]

  /** `_get_octal_bit_config`: the table entry of a digit, or a range error. */
  function GetOctalBitConfig(octalBit: int): (r: Result<OctalConfig>)
    ensures r.Ok? <==> 0 <= octalBit <= 7
    ensures r.Ok? ==> HasBitsOf(r.value, octalBit) && r.value.description == Descriptions[octalBit]
    ensures r.Err? ==> r.error == DigitOutOfRange
  {
    if 0 <= octalBit <= 7 then Ok(OctalBitConfigurations[octalBit]) else Err(DigitOutOfRange)
  }

  /** `from_octal_bit_to_config`: text is first read as a decimal integer. */
  function FromOctalBitToConfig(octalBit: Input): (r: Result<OctalConfig>)
    ensures octalBit.Int? ==> (r.Ok? <==> 0 <= octalBit.i <= 7)
    ensures octalBit.Int? && r.Ok? ==> HasBitsOf(r.value, octalBit.i)
    ensures octalBit.Str? ==> (r.Ok? <==> exists n :: 0 <= n <= 7 && ParseInt(octalBit.s, 10) == Some(n))
    ensures octalBit.Str? && r.Ok? ==> HasBitsOf(r.value, ParseInt(octalBit.s, 10).value)
    ensures r.Err? && octalBit.Str? ==> r.error == (if ParseInt(octalBit.s, 10).None? then NotDigitText else DigitOutOfRange)
    ensures r.Err? && octalBit.Int? ==> r.error == DigitOutOfRange
    ensures r.Ok? ==> r.value in OctalBitConfigurations.Values
  {
    if octalBit.Str? then
      match ParseInt(octalBit.s, 10)
      case None => Err(NotDigitText)
      case Some(n) => GetOctalBitConfig(n)
    else
      GetOctalBitConfig(octalBit.i)
  }

  /** `_octal_integer_validation`: length first, then the digit set, then `zfill(3)`. */
  function OctalIntegerValidation(octalIntAsStr: string): (r: Result<string>)
    ensures r.Ok? <==> 1 <= |octalIntAsStr| <= 3 && AllDigits(octalIntAsStr, 8)
    ensures r == Err(BadLength) <==> !(1 <= |octalIntAsStr| <= 3)
    ensures r == Err(BadDigits) <==>
              1 <= |octalIntAsStr| <= 3 && exists i :: 0 <= i < |octalIntAsStr| && !IsOctalDigit(octalIntAsStr[i])
    ensures r.Ok? ==>
              && |r.value| == 3
              && IsDigitString(r.value, 8)
              && r.value[3 - |octalIntAsStr|..] == octalIntAsStr
              && r.value[..3 - |octalIntAsStr|] == Zeros(3 - |octalIntAsStr|)
              && r.value == Zeros(3 - |octalIntAsStr|) + octalIntAsStr
  {
    var octalStringLength := |octalIntAsStr|;
    if !(1 <= octalStringLength <= 3) then
      Err(BadLength)
    else if exists i :: 0 <= i < octalStringLength && octalIntAsStr[i] !in ValidOctalModeBits then
      Err(BadDigits)
    else
      Ok(ZFill(octalIntAsStr, 3))
  }

  /** `_to_octal_str_repr_conversion`: `format(n, 'o')`, then validation.
      Exactly the modes 0..511 pass, as three base-8 digits that read back as
      `n`; a negative value fails on its '-' unless its text is too long. */
  function ToOctalStrReprConversion(octalObject: int): (r: Result<string>)
    ensures r.Ok? <==> 0 <= octalObject <= 511
    ensures r.Ok? ==> |r.value| == 3 && IsDigitString(r.value, 8) && ParseInt(r.value, 8) == Some(octalObject)
    ensures r == Err(BadLength) <==> octalObject > 511 || octalObject < -63
    ensures r == Err(BadDigits) <==> -63 <= octalObject < 0
  {
    if 0 <= octalObject <= 511 then
      InRangeConversion(octalObject);
      OctalIntegerValidation(OctalText(octalObject))
    else
      OutOfRangeConversion(octalObject);
      OctalIntegerValidation(OctalText(octalObject))
  }

  lemma InRangeConversion(n: int)
    requires 0 <= n <= 511
    ensures var r := OctalIntegerValidation(OctalText(n));
            r.Ok? && |r.value| == 3 && IsDigitString(r.value, 8) && ParseInt(r.value, 8) == Some(n)
  {
    OctalTextLength(n);
    var octalString := OctalText(n);
    var r := OctalIntegerValidation(octalString);
    var k := 3 - |octalString|;
    DigitsRoundTrip(n, 8);
    LeadingZerosValue(k, octalString, 8);
    assert r.value == Zeros(k) + octalString;
    ThreeDigitsParse(r.value);
  }

  lemma OutOfRangeConversion(n: int)
    requires !(0 <= n <= 511)
    ensures var r := OctalIntegerValidation(OctalText(n));
            && r.Err?
            && (r == Err(BadLength) <==> n > 511 || n < -63)
            && (r == Err(BadDigits) <==> -63 <= n < 0)
  {
    OctalTextLength(n);
    assert n < 0 ==> OctalText(n)[0] == '-';
  }

  /** `from_decimal_repr_to_octal_integer`: "0o" text is read in base 8, other
      text in base 10, integers as they are; the value is then rendered in base 8. */
  function FromDecimalReprToOctalInteger(octalObject: Input): (r: Result<string>)
    ensures octalObject.Int? ==> (r.Ok? <==> 0 <= octalObject.i <= 511)
    ensures octalObject.Int? && r.Ok? ==>
              |r.value| == 3 && AllDigits(r.value, 8) && ParseInt(r.value, 8) == Some(octalObject.i)
    ensures octalObject.Str? && StartsWith(octalObject.s, "0o") && ParseInt(octalObject.s, 8).None? ==>
              r == Err(NotOctalLiteral)
    ensures octalObject.Str? && !StartsWith(octalObject.s, "0o") && ParseInt(octalObject.s, 10).None? ==>
              r == Err(NotDecimalRepr)
  {
    match octalObject
    case Int(n) => ToOctalStrReprConversion(n)
    case Str(s) =>
      var intBase := if StartsWith(s, "0o") then 8 else 10;
      var message := if intBase == 8 then NotOctalLiteral else NotDecimalRepr;
      match ParseInt(s, intBase)
      case None => Err(message)
      case Some(n) => ToOctalStrReprConversion(n)
  }

  /** `from_octal_integer`: an integer's decimal text is taken as octal digits. */
  function FromOctalInteger(octalObject: Input): (r: Result<string>)
    ensures octalObject.Str? ==> (r.Ok? <==> 1 <= |octalObject.s| <= 3 && AllDigits(octalObject.s, 8))
    ensures r.Ok? ==> |r.value| == 3 && AllDigits(r.value, 8)
    ensures octalObject.Str? && r.Ok? ==> r.value == Zeros(3 - |octalObject.s|) + octalObject.s
    ensures octalObject.Str? && r.Err? ==> r.error == (if 1 <= |octalObject.s| <= 3 then BadDigits else BadLength)
  {
    match octalObject
    case Int(n) => OctalIntegerValidation(DecimalText(n))
    case Str(s) => OctalIntegerValidation(s)
  }

  /** `is_decimal_repr`: an `InvalidOctalError` becomes `false`. */
  function IsDecimalRepr(octalObject: Input): (b: bool)
    ensures b <==> FromDecimalReprToOctalInteger(octalObject).Ok?
    ensures octalObject.Int? ==> (b <==> 0 <= octalObject.i <= 511)
  {
    match FromDecimalReprToOctalInteger(octalObject)
    case Ok(_) => true
    case Err(_) => false
  }

  /** `is_octal_integer`: an `InvalidOctalError` becomes `false`. */
  function IsOctalInteger(octalInteger: Input): (b: bool)
    ensures b <==> FromOctalInteger(octalInteger).Ok?
    ensures octalInteger.Str? ==> (b <==> 1 <= |octalInteger.s| <= 3 && AllDigits(octalInteger.s, 8))
  {
    match FromOctalInteger(octalInteger)
    case Ok(_) => true
    case Err(_) => false
  }

  // ---------------------------------------------------------------------------
  // Properties

  /** A three-digit octal string is read by `int(s, 8)` as 64*s[0] + 8*s[1] + s[2]. */
  lemma ThreeDigitsParse(m: string)
    requires |m| == 3 && AllDigits(m, 8)
    ensures ParseInt(m, 8) == Some(DigitsValue(m, 8))
    ensures DigitsValue(m, 8) == 64 * DigitValue(m[0]) + 8 * DigitValue(m[1]) + DigitValue(m[2])
  {
    assert !StartsWith(m, "0o") by { assert m[1] != 'o'; }
    ThreeDigitsValue(m, 8);
  }

  /** Every digit 0..7 has a table entry whose flags are its three bits and
      whose description is the canonical one; the entries are pairwise distinct. */
  lemma DigitTableMatchesBits()
    ensures forall d :: d in OctalBitConfigurations <==> 0 <= d <= 7
    ensures forall d :: 0 <= d <= 7 ==>
              HasBitsOf(OctalBitConfigurations[d], d) && OctalBitConfigurations[d].description == Descriptions[d]
    ensures forall d, e :: 0 <= d < e <= 7 ==> OctalBitConfigurations[d] != OctalBitConfigurations[e]
  {
  }

  /** Text input is parsed first; a parsed value then obeys the integer rule. */
  lemma TextFollowsIntegerRule(s: string, n: int)
    requires ParseInt(s, if StartsWith(s, "0o") then 8 else 10) == Some(n)
    ensures FromDecimalReprToOctalInteger(Str(s)) == FromDecimalReprToOctalInteger(Int(n))
  {
  }

  /** The base-8 rendering of a mode is the unique three-digit string with its value. */
  lemma ConversionIsCanonical(n: int, m: string)
    requires |m| == 3 && AllDigits(m, 8) && DigitsValue(m, 8) == n
    ensures ToOctalStrReprConversion(n) == Ok(m)
  {
    ThreeDigitsParse(m);
    var r := ToOctalStrReprConversion(n);
    ThreeDigitsParse(r.value);
    ThreeDigitsInjective(r.value, m);
  }

  /** A normalised mode written as an octal literal normalises back to itself. */
  lemma OctalLiteralRoundTrip(m: string)
    requires |m| == 3 && AllDigits(m, 8)
    ensures FromDecimalReprToOctalInteger(Str("0o" + m)) == Ok(m)
  {
    var lit := "0o" + m;
    assert lit[..2] == "0o" && lit[2..] == m;
    assert ParseUnsigned(lit, 8) == Some(DigitsValue(m, 8));
    ConversionIsCanonical(DigitsValue(m, 8), m);
  }

  lemma ThreeDigitsInjective(a: string, b: string)
    requires |a| == 3 && AllDigits(a, 8) && |b| == 3 && AllDigits(b, 8)
    requires 64 * DigitValue(a[0]) + 8 * DigitValue(a[1]) + DigitValue(a[2])
          == 64 * DigitValue(b[0]) + 8 * DigitValue(b[1]) + DigitValue(b[2])
    ensures a == b
  {
    assert DigitValue(a[0]) < 8 && DigitValue(b[0]) < 8;
    assert DigitValue(a[1]) < 8 && DigitValue(b[1]) < 8;
    assert DigitValue(a[2]) < 8 && DigitValue(b[2]) < 8;
    assert a[0] == b[0] && a[1] == b[1] && a[2] == b[2];
  }

  /** The decimal text of a mode value normalises like the value itself. */
  lemma DecimalTextRoundTrip(n: int)
    ensures FromDecimalReprToOctalInteger(Str(DecimalText(n))) == FromDecimalReprToOctalInteger(Int(n))
  {
    var t := DecimalText(n);
    assert !StartsWith(t, "0o") by {
      if |t| >= 2 {
        assert t[1] != 'o' by {
          if n < 0 {
            assert t[1] == Digits(-n, 10)[0];
          }
        }
      }
    }
    DecimalTextParses(n);
  }

  /** `from_octal_integer` on an int validates its decimal text: the digits are
      kept as they are (no change of base), and the int is a mode exactly when
      it is 0..777 and written with the digits 0..7 only. */
  lemma IntegerTextIsNotRebased(n: int)
    ensures FromOctalInteger(Int(n)) == FromOctalInteger(Str(DecimalText(n)))
    ensures FromOctalInteger(Int(n)).Ok? <==> 0 <= n <= 777 && AllDigits(DecimalText(n), 8)
    ensures FromOctalInteger(Int(n)).Ok? ==> ParseInt(FromOctalInteger(Int(n)).value, 10) == Some(n)
    ensures FromOctalInteger(Int(n)) == Err(BadLength) <==> n < -99 || n > 999
    ensures n < 0 && -99 <= n ==> FromOctalInteger(Int(n)) == Err(BadDigits)
  {
    var t := DecimalText(n);
    DecimalTextLength(n);
    if n < 0 {
      assert t[0] == '-';
    } else {
      DigitsLength(n, 10, 3);
      var r := FromOctalInteger(Int(n));
      if r.Ok? {
        DigitsRoundTrip(n, 10);
        LeadingZerosValue(3 - |t|, t, 10);
        assert r.value == Zeros(3 - |t|) + t;
        assert r.value[0] != '-';
        assert ParseUnsigned(r.value, 10) == Some(n);
        assert DigitValue(t[0]) <= 7;
        assert n <= 777 by {
          if |t| == 3 {
            assert t == r.value;
            ThreeDigitDecimal(t);
          }
        }
      }
    }
  }

  lemma ThreeDigitDecimal(m: string)
    requires |m| == 3 && AllDigits(m, 8)
    ensures DigitsValue(m, 10) <= 777
  {
    assert m[..|m| - 1] == m[..2];
    assert m[..2][..1] == m[..1];
    assert m[..1][..0] == [];
    assert DigitsValue(m[..1], 10) == DigitValue(m[0]);
  }

  /** Normalising a normalised mode returns it unchanged. */
  lemma NormaliseIdempotent(octalObject: Input)
    requires FromOctalInteger(octalObject).Ok?
    ensures FromOctalInteger(Str(FromOctalInteger(octalObject).value)) == FromOctalInteger(octalObject)
  {
  }

  /** `is_octal_integer` holds exactly on the inputs `from_octal_integer` accepts. */
  lemma IsOctalIntegerMeaning(x: Input)
    ensures IsOctalInteger(x) <==> FromOctalInteger(x).Ok?
    ensures x.Str? ==> (IsOctalInteger(x) <==> 1 <= |x.s| <= 3 && forall i :: 0 <= i < |x.s| ==> IsOctalDigit(x.s[i]))
    ensures x.Int? ==> (IsOctalInteger(x) <==> 0 <= x.i <= 777 && AllDigits(DecimalText(x.i), 8))
  {
    if x.Int? { IntegerTextIsNotRebased(x.i); }
  }

  /** `is_decimal_repr` holds exactly on the inputs
      `from_decimal_repr_to_octal_integer` accepts; for an int that is 0..511. */
  lemma IsDecimalReprMeaning(x: Input)
    ensures IsDecimalRepr(x) <==> FromDecimalReprToOctalInteger(x).Ok?
    ensures x.Int? ==> (IsDecimalRepr(x) <==> 0 <= x.i <= 511)
    ensures x.Str? ==> (IsDecimalRepr(x) <==>
              exists n :: 0 <= n <= 511 && ParseInt(x.s, if StartsWith(x.s, "0o") then 8 else 10) == Some(n))
  {
  }

  /** Worked cases of `from_octal_integer` from the library's tests. */
  lemma OctalIntegerExamples()
    ensures FromOctalInteger(Str("111")) == Ok("111")
    ensures FromOctalInteger(Int(0)) == Ok("000")
    ensures FromOctalInteger(Str("118")) == Err(BadDigits)
    ensures FromOctalInteger(Str("7777")) == Err(BadLength)
    ensures FromOctalInteger(Int(3333)) == Err(BadLength)
  {
    PaddingExample("0");
    assert !IsOctalDigit("118"[2]);
  }

  /** A single digit is padded with two zeros ("3" gives "003"). */
  lemma PaddingExample(d: string)
    requires |d| == 1 && IsOctalDigit(d[0])
    ensures FromOctalInteger(Str(d)) == Ok(['0', '0', d[0]])
  {
    var r := OctalIntegerValidation(d);
    assert r != Err(BadDigits) && r != Err(BadLength);
    assert Zeros(2) == "00";
    assert r.value == r.value[..2] + r.value[2..] == "00" + d;
    assert d == [d[0]];
    assert r.value == ['0', '0', d[0]];
    assert FromOctalInteger(Str(d)) == r;
  }

  /** Decimal 438 is the mode 666. */
  lemma IntegerModeExample()
    ensures FromDecimalReprToOctalInteger(Int(438)) == Ok("666")
  {
    ThreeDigitsParse("666");
    ConversionIsCanonical(438, "666");
  }

  /** 0o100 | 0o200 | 0o070 (decimal 248) is the mode 370. */
  lemma OredModeExample()
    ensures FromDecimalReprToOctalInteger(Int(248)) == Ok("370")
  {
    ThreeDigitsParse("370");
    ConversionIsCanonical(248, "370");
  }

  /** The octal literal "0o777" is the mode 777. */
  lemma OctalLiteralExample()
    ensures FromDecimalReprToOctalInteger(Str("0o777")) == Ok("777")
  {
    OctalLiteralRoundTrip("777");
    assert "0o" + "777" == "0o777";
  }

  /** "999" is read as decimal 999 = 0o1747, four octal digits. */
  lemma DecimalTextTooLongExample()
    ensures FromDecimalReprToOctalInteger(Str("999")) == Err(BadLength)
  {
    ThreeDigitsValue("999", 10);
    assert ParseInt("999", 10) == Some(999);
  }

  /** Text digits are read in decimal, so leading zeros are allowed and "47" is out of range. */
  lemma OctalBitExamples()
    ensures FromOctalBitToConfig(Str("007")) == Ok(OctalModeBit7)
    ensures FromOctalBitToConfig(Str("47")) == Err(DigitOutOfRange)
    ensures FromOctalBitToConfig(Int(700)) == Err(DigitOutOfRange)
    ensures FromOctalBitToConfig(Str("x")) == Err(NotDigitText)
  {
    ThreeDigitsValue("007", 10);
    assert ParseInt("007", 10) == Some(7);
    assert "47"[..1] == "4";
    assert ParseInt("47", 10) == Some(47);
  }
}
