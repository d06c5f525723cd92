/** The earlier form of the digit table and normalisers, `py_perms/octals.py`:
    the same rules written with nested branches, a local digit set, and no
    `is_decimal_repr`. */
module PyOctals {
  import opened Numerals
  import opened OctalTypes

  const OctalModeBit0 := OctalConfig("No permissions", false, false, false)
  const OctalModeBit1 := OctalConfig("Execute permission only", false, false, true)
  const OctalModeBit2 := OctalConfig("Write permission only", false, true, false)
  const OctalModeBit3 := OctalConfig("Write and execute permissions", false, true, true)
  const OctalModeBit4 := OctalConfig("Read permission only", true, false, false)
  const OctalModeBit5 := OctalConfig("Read and execute permissions", true, false, true)
  const OctalModeBit6 := OctalConfig("Read and write permissions", true, true, false)
  const OctalModeBit7 := OctalConfig("Read, write, and execute permissions", true, true, true)

  /** `OCTAL_BIT_CONFIGURATIONS`: the digit table. */
  const OctalBitConfigurations: map<int, OctalConfig> := map[
    0 := OctalModeBit0, 1 := OctalModeBit1, 2 := OctalModeBit2, 3 := OctalModeBit3,
    4 := OctalModeBit4, 5 := OctalModeBit5, 6 := OctalModeBit6, 7 := OctalModeBit7
  ]

  /** `_get_octal_bit_config`: the table entry of a digit, or a range error. */
  function GetOctalBitConfig(octalBit: int): (r: Result<OctalConfig>)
    ensures r.Ok? <==> 0 <= octalBit <= 7
    ensures r.Ok? ==> HasBitsOf(r.value, octalBit) && r.value.description == Descriptions[octalBit]
    ensures r.Err? ==> r.error == DigitOutOfRange
  {
    if 0 <= octalBit <= 7 then Ok(OctalBitConfigurations[octalBit]) else Err(DigitOutOfRange)
  }

  /** `from_octal_bit_to_config`: text is read as a decimal integer before the range check. */
  function FromOctalBitToConfig(octalBit: Input): (r: Result<OctalConfig>)
    ensures octalBit.Int? ==> (r.Ok? <==> 0 <= octalBit.i <= 7)
    ensures octalBit.Str? ==> (r.Ok? <==> exists n :: 0 <= n <= 7 && ParseInt(octalBit.s, 10) == Some(n))
    ensures r.Ok? ==> HasBitsOf(r.value, if octalBit.Int? then octalBit.i else ParseInt(octalBit.s, 10).value)
  {
    match octalBit
    case Str(s) =>
      (match ParseInt(s, 10)
       case None => Err(NotDigitText)
       case Some(octalBitAsInt) => GetOctalBitConfig(octalBitAsInt))
    case Int(i) => GetOctalBitConfig(i)
  }

  /** `_octal_integer_validation`: length first, then the digit set, then `zfill(3)`. */
  function OctalIntegerValidation(octalIntAsStr: string): (r: Result<string>)
    ensures r.Ok? <==> 1 <= |octalIntAsStr| <= 3 && AllDigits(octalIntAsStr, 8)
    ensures r == Err(BadLength) <==> !(1 <= |octalIntAsStr| <= 3)
    ensures r == Err(BadDigits) <==>
              1 <= |octalIntAsStr| <= 3 && exists i :: 0 <= i < |octalIntAsStr| && !IsOctalDigit(octalIntAsStr[i])
    ensures r.Ok? ==>
              && |r.value| == 3
              && IsDigitString(r.value, 8)
              && r.value[3 - |octalIntAsStr|..] == octalIntAsStr
              && r.value[..3 - |octalIntAsStr|] == Zeros(3 - |octalIntAsStr|)
              && r.value == Zeros(3 - |octalIntAsStr|) + octalIntAsStr
  {
    var validBits: set<char> := set num | 0 <= num < 8 :: DigitChar(num);
    assert validBits == {'0', '1', '2', '3', '4', '5', '6', '7'} by {
      assert DigitChar(0) == '0' && DigitChar(1) == '1' && DigitChar(2) == '2' && DigitChar(3) == '3';
      assert DigitChar(4) == '4' && DigitChar(5) == '5' && DigitChar(6) == '6' && DigitChar(7) == '7';
    }
    var octalStringLength := |octalIntAsStr|;
    if !(1 <= octalStringLength <= 3) then
      Err(BadLength)
    else if exists i :: 0 <= i < octalStringLength && octalIntAsStr[i] !in validBits then
      Err(BadDigits)
    else
      Ok(ZFill(octalIntAsStr, 3))
  }

  /** `_to_octal_str_repr_conversion`: `format(n, 'o')`, then validation. */
  function ToOctalStrReprConversion(octalObject: int): (r: Result<string>)
    ensures r.Ok? ==> |r.value| == 3 && AllDigits(r.value, 8)
  {
    OctalIntegerValidation(OctalText(octalObject))
  }

  /** `from_decimal_repr_to_octal_integer`: "0o" text in base 8, other text in base 10, ints directly. */
  function FromDecimalReprToOctalInteger(octalObject: Input): (r: Result<string>)
    ensures r.Ok? ==> |r.value| == 3 && AllDigits(r.value, 8)
  {
    match octalObject
    case Str(s) =>
      if StartsWith(s, "0o") then
        (match ParseInt(s, 8)
         case None => Err(NotOctalLiteral)
         case Some(octalDecimal) => ToOctalStrReprConversion(octalDecimal))
      else
        (match ParseInt(s, 10)
         case None => Err(NotDecimalRepr)
         case Some(octalDecimal) => ToOctalStrReprConversion(octalDecimal))
    case Int(n) => ToOctalStrReprConversion(n)
  }

  /** `from_octal_integer`: an integer's decimal text is taken as octal digits. */
  function FromOctalInteger(octalObject: Input): (r: Result<string>)
    ensures octalObject.Str? ==> (r.Ok? <==> 1 <= |octalObject.s| <= 3 && AllDigits(octalObject.s, 8))
    ensures r.Ok? ==> |r.value| == 3 && AllDigits(r.value, 8)
    ensures octalObject.Str? && r.Ok? ==> r.value == Zeros(3 - |octalObject.s|) + octalObject.s
    ensures octalObject.Str? && r.Err? ==> r.error == (if 1 <= |octalObject.s| <= 3 then BadDigits else BadLength)
  {
    match octalObject
    case Str(s) => OctalIntegerValidation(s)
    case Int(n) => OctalIntegerValidation(DecimalText(n))
  }

  /** `is_octal_integer`: an `InvalidOctalError` becomes `false`. */
  function IsOctalInteger(octalInteger: Input): (b: bool)
    ensures b <==> FromOctalInteger(octalInteger).Ok?
    ensures octalInteger.Str? ==> (b <==> 1 <= |octalInteger.s| <= 3 && AllDigits(octalInteger.s, 8))
  {
    match FromOctalInteger(octalInteger)
    case Err(_) => false
    case Ok(_) => true
  }
}
