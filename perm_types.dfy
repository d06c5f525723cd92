/** The permission value types of `py_perms/types.py`: a read/write/execute
    configuration, one authority's permission byte, and a full mode made of
    three bytes. None of them is changed after construction, so all three are
    datatypes. */
module PermTypes {
  import opened Numerals
  import opened OctalTypes
  import opened Permissions
  import PyOctals
  import UnixOctals
  import OctalVersions

  /** `PermissionsConfig`; every flag defaults to false. */
  datatype PermissionsConfig = PermissionsConfig(read: bool, write: bool, execute: bool) {

    /** The octal digit this configuration stands for: 4·read + 2·write + execute. */
    function Digit(): (d: nat)
      ensures d < 8
      ensures d / 4 == 1 <==> read
      ensures d / 2 % 2 == 1 <==> write
      ensures d % 2 == 1 <==> execute
    {
      (if read then 4 else 0) + (if write then 2 else 0) + (if execute then 1 else 0)
    }

    /** `PermissionsConfig.from_octal_bit`: copy the flags of the digit-table entry. */
    static function FromOctalBit(octalBit: Input): (r: Result<PermissionsConfig>)
      ensures r.Ok? <==> PyOctals.FromOctalBitToConfig(octalBit).Ok?
      ensures r.Err? ==> r.error == PyOctals.FromOctalBitToConfig(octalBit).error
      ensures r.Ok? ==> r.value.Digit() == if octalBit.Int? then octalBit.i else ParseInt(octalBit.s, 10).value
    {
      var octalConfig :- PyOctals.FromOctalBitToConfig(octalBit);
      Ok(PermissionsConfig(octalConfig.read, octalConfig.write, octalConfig.execute))
    }
  }

  const DefaultConfig := PermissionsConfig(false, false, false)

  /** The weight of an authority's digit in the decimal reading of a mode text. */
  function DecimalPlace(a: Authority): nat {
    match a
    case Owner => 100
    case Group => 10
    case Others => 1
  }

  /** `PermissionsByte`: one authority and its configuration, stored as given
      (`_config` is `config`); `OctalPermissions(authority)` is the choice of
      the authority's bits in `Permissions`. */
  datatype PermissionsByte = PermissionsByte(authority: Authority, config: PermissionsConfig) {

    /** `read_permission`: granted exactly when the byte's mode has the authority's read bit. */
    function ReadPermission(): (granted: bool)
      ensures granted <==> ModeBits(authority, config) & Read(authority) != 0
    {
      config.read
    }

    /** `write_permission`: granted exactly when the byte's mode has the authority's write bit. */
    function WritePermission(): (granted: bool)
      ensures granted <==> ModeBits(authority, config) & Write(authority) != 0
    {
      config.write
    }

    /** `execute_permission`: granted exactly when the byte's mode has the authority's execute bit. */
    function ExecutePermission(): (granted: bool)
      ensures granted <==> ModeBits(authority, config) & Execute(authority) != 0
    {
      config.execute
    }

    /** The three-character mode text of this byte: its digit in the
        authority's position and '0' in the other two. */
    function Code(): (c: string)
      ensures |c| == 3 && AllDigits(c, 8)
    {
      var d := DigitChar(config.Digit());
      match authority
      case Owner => [d, '0', '0']
      case Group => ['0', d, '0']
      case Others => ['0', '0', d]
    }

    /** `permissions_code`: OR in the authority's bit for each granted
        permission, render in base 8 and pad to three digits. */
    method PermissionsCode() returns (code: string)
      ensures code == Code()
    {
      var basePermissions := NoPermissions(authority);
      if config.read {
        basePermissions := basePermissions | Read(authority);
      }
      if config.write {
        basePermissions := basePermissions | Write(authority);
      }
      if config.execute {
        basePermissions := basePermissions | Execute(authority);
      }
      code := ZFill(OctalText(basePermissions as int), 3);
      assert basePermissions == ModeBits(authority, config);
      ModeBitsValue(authority, config);
      PlacedDigitText(authority, config);
    }

    /** `permissions_description`: strip the zeros of the code, read the
        remaining digit (none left means 0) and look up its description. */
    function PermissionsDescription(): (description: string)
      ensures description == Descriptions[config.Digit()]
    {
      CodeStripsToDigit(this);
      var permissionsCode := Strip(Code(), '0');
      var octalBit := if permissionsCode == "" then Some(0) else ParseInt(permissionsCode, 10);
      match octalBit
      case None => assert false; ""
      case Some(n) =>
        match PyOctals.FromOctalBitToConfig(Int(n))
        case Err(_) => assert false; ""
        case Ok(octalConfig) => octalConfig.description
    }

    /** `permissions_code_as_int`: the code read as a decimal number. */
    function PermissionsCodeAsInt(): (n: int)
      ensures n == config.Digit() * DecimalPlace(authority)
    {
      var code := Code();
      ThreeDigitsValue(code, 10);
      ThreeDigitsParseDecimal(code);
      match ParseInt(code, 10)
      case Some(v) => v
      case None => assert false; 0
    }

    /** `permissions_code_as_octal_literal`: "0o" followed by the code. */
    function PermissionsCodeAsOctalLiteral(): (literal: string)
      ensures |literal| == 5 && literal[..2] == "0o" && literal[2..] == Code()
      ensures ParseInt(literal, 8) == Some(config.Digit() * Place(authority))
    {
      var literal := "0o" + Code();
      assert literal[..2] == "0o" && literal[2..] == Code();
      ThreeDigitsValue(Code(), 8);
      literal
    }
  }

  /** The bits `permissions_code` accumulates for a configuration. */
  function ModeBits(a: Authority, c: PermissionsConfig): bv9 {
    NoPermissions(a)
    | (if c.read then Read(a) else 0)
    | (if c.write then Write(a) else 0)
    | (if c.execute then Execute(a) else 0)
  }

  /** The accumulated bits are the configuration's digit in the authority's place. */
  lemma ModeBitsValue(a: Authority, c: PermissionsConfig)
    ensures ModeBits(a, c) as int == c.Digit() * Place(a)
  {
    match a
    case Owner =>
    case Group =>
    case Others =>
  }

  /** `format(d * place, 'o').zfill(3)` puts digit `d` in the authority's position. */
  lemma PlacedDigitText(a: Authority, c: PermissionsConfig)
    ensures ZFill(OctalText(c.Digit() * Place(a)), 3) == PermissionsByte(a, c).Code()
  {
    var d := c.Digit();
    assert Digits(d, 8) == [DigitChar(d)];
    match a
    case Owner => OwnerDigitText(d);
    case Group => GroupDigitText(d);
    case Others => assert Zeros(2) == "00";
  }

  lemma OwnerDigitText(d: nat)
    requires d < 8 && Digits(d, 8) == [DigitChar(d)]
    ensures ZFill(OctalText(d * 64), 3) == [DigitChar(d), '0', '0']
  {
    if d > 0 {
      DigitsTimesBase(d, 8);
      DigitsTimesBase(d * 8, 8);
      assert d * 8 * 8 == d * 64;
    } else {
      assert Zeros(2) == "00";
    }
  }

  lemma GroupDigitText(d: nat)
    requires d < 8 && Digits(d, 8) == [DigitChar(d)]
    ensures ZFill(OctalText(d * 8), 3) == ['0', DigitChar(d), '0']
  {
    if d > 0 {
      DigitsTimesBase(d, 8);
      assert Zeros(1) == "0";
    } else {
      assert Zeros(2) == "00";
    }
  }

  /** Multiplying a positive number by the base appends a '0' digit. */
  lemma DigitsTimesBase(n: nat, base: nat)
    requires 2 <= base <= 10 && n > 0
    ensures Digits(n * base, base) == Digits(n, base) + ['0']
  {
    assert (n * base) / base == n && (n * base) % base == 0;
    assert DigitChar(0) == '0';
  }

  /** Stripping '0' from a byte's code leaves its digit, or nothing for 0. */
  lemma CodeStripsToDigit(b: PermissionsByte)
    ensures var s := Strip(b.Code(), '0');
            if b.config.Digit() == 0 then s == ""
            else s == [DigitChar(b.config.Digit())] && ParseInt(s, 10) == Some(b.config.Digit())
  {
    var d := b.config.Digit();
    SingleDigitParse(DigitChar(d));
    if d == 0 {
      StripZeros(['0', '0', '0']);
    } else {
      match b.authority
      case Owner => StripOwnerCode(DigitChar(d));
      case Group => StripGroupCode(DigitChar(d));
      case Others => StripOthersCode(DigitChar(d));
    }
  }

  lemma StripZeros(c: string)
    requires c == ['0', '0', '0']
    ensures Strip(c, '0') == ""
  {
    assert c[1..][1..][1..] == [];
  }

  lemma StripOwnerCode(ch: char)
    requires ch != '0'
    ensures Strip([ch, '0', '0'], '0') == [ch]
  {
    var c := [ch, '0', '0'];
    assert StripLeft(c, '0') == c;
    assert c[..2] == [ch, '0'] && c[..2][..1] == [ch];
    assert StripRight(c, '0') == StripRight([ch, '0'], '0') == StripRight([ch], '0') == [ch];
  }

  lemma StripGroupCode(ch: char)
    requires ch != '0'
    ensures Strip(['0', ch, '0'], '0') == [ch]
  {
    var c := ['0', ch, '0'];
    assert c[1..] == [ch, '0'] && c[1..][..1] == [ch];
    assert StripLeft(c, '0') == StripLeft([ch, '0'], '0') == [ch, '0'];
    assert StripRight([ch, '0'], '0') == StripRight([ch], '0') == [ch];
  }

  lemma StripOthersCode(ch: char)
    requires ch != '0'
    ensures Strip(['0', '0', ch], '0') == [ch]
  {
    var c := ['0', '0', ch];
    var c1 := ['0', ch];
    var c2 := [ch];
    assert c[1..] == c1 && c1[1..] == c2;
    assert StripLeft(c2, '0') == c2;
    assert StripLeft(c1, '0') == c2;
    assert StripLeft(c, '0') == c2;
    assert StripRight(c2, '0') == c2;
  }

  /** A three-character digit string is read by `int(s)` as its decimal value. */
  lemma ThreeDigitsParseDecimal(m: string)
    requires |m| == 3 && AllDigits(m, 10)
    ensures ParseInt(m, 10) == Some(DigitsValue(m, 10))
  {
  }

  /** `PermissionsCode`: one byte per authority. */
  datatype PermissionsCode = PermissionsCode(ownerByte: PermissionsByte, groupByte: PermissionsByte, othersByte: PermissionsByte) {

    /** `__generate_class_arguments`: digit 0 for the owner, 1 for the group,
        2 for others, each through `PermissionsConfig.from_octal_bit`. */
    static function GenerateClassArguments(permissionCode: string): (r: Result<PermissionsCode>)
      requires |permissionCode| >= 3
      ensures r.Ok? <==> IsOctalDigit(permissionCode[0]) && IsOctalDigit(permissionCode[1]) && IsOctalDigit(permissionCode[2])
      ensures r.Ok? ==> r.value.ownerByte.authority == Owner && r.value.groupByte.authority == Group
                        && r.value.othersByte.authority == Others
      ensures r.Ok? ==> && r.value.ownerByte.Code() == [permissionCode[0], '0', '0']
                        && r.value.groupByte.Code() == ['0', permissionCode[1], '0']
                        && r.value.othersByte.Code() == ['0', '0', permissionCode[2]]
    {
      OctalBitOfChar(permissionCode[0]);
      OctalBitOfChar(permissionCode[1]);
      OctalBitOfChar(permissionCode[2]);
      var ownerConfig :- PermissionsConfig.FromOctalBit(Str([permissionCode[0]]));
      var groupConfig :- PermissionsConfig.FromOctalBit(Str([permissionCode[1]]));
      var othersConfig :- PermissionsConfig.FromOctalBit(Str([permissionCode[2]]));
      Ok(PermissionsCode(
        PermissionsByte(Owner, ownerConfig),
        PermissionsByte(Group, groupConfig),
        PermissionsByte(Others, othersConfig)))
    }

    /** `PermissionsCode.from_octal_integer`: normalise with `from_octal_integer`, then split. */
    static function FromOctalInteger(octalObject: Input): (r: Result<PermissionsCode>)
      ensures r.Ok? <==> PyOctals.FromOctalInteger(octalObject).Ok?
      ensures r.Err? ==> r.error == PyOctals.FromOctalInteger(octalObject).error
      ensures r.Ok? ==> r.value.Digits() == PyOctals.FromOctalInteger(octalObject).value
      ensures r.Ok? ==> && r.value.ownerByte.authority == Owner && r.value.groupByte.authority == Group
                        && r.value.othersByte.authority == Others
    {
      var permissionCode :- PyOctals.FromOctalInteger(octalObject);
      SpellsMode(permissionCode);
      GenerateClassArguments(permissionCode)
    }

    /** `PermissionsCode.from_octal_decimal_repr`: normalise with
        `from_decimal_repr_to_octal_integer`, then split. */
    static function FromOctalDecimalRepr(octalObject: Input): (r: Result<PermissionsCode>)
      ensures r.Ok? <==> PyOctals.FromDecimalReprToOctalInteger(octalObject).Ok?
      ensures r.Err? ==> r.error == PyOctals.FromDecimalReprToOctalInteger(octalObject).error
      ensures r.Ok? ==> r.value.Digits() == PyOctals.FromDecimalReprToOctalInteger(octalObject).value
      ensures r.Ok? ==> && r.value.ownerByte.authority == Owner && r.value.groupByte.authority == Group
                        && r.value.othersByte.authority == Others
    {
      var permissionCode :- PyOctals.FromDecimalReprToOctalInteger(octalObject);
      SpellsMode(permissionCode);
      GenerateClassArguments(permissionCode)
    }

    /** The mode text the three bytes spell, one digit from each byte's own position. */
    function Digits(): string {
      [ownerByte.Code()[0], groupByte.Code()[1], othersByte.Code()[2]]
    }
  }

  /** A normalised mode splits into bytes that spell it again. */
  lemma SpellsMode(m: string)
    requires |m| == 3 && AllDigits(m, 8)
    ensures PermissionsCode.GenerateClassArguments(m).Ok?
    ensures PermissionsCode.GenerateClassArguments(m).value.Digits() == m
  {
    assert IsOctalDigit(m[0]) && IsOctalDigit(m[1]) && IsOctalDigit(m[2]);
    var p := PermissionsCode.GenerateClassArguments(m).value;
    var o, g, t := p.ownerByte.Code(), p.groupByte.Code(), p.othersByte.Code();
    assert o[0] == m[0] && g[1] == m[1] && t[2] == m[2];
    assert p.Digits() == [o[0], g[1], t[2]];
    assert m == [m[0], m[1], m[2]];
  }

  /** `from_octal_bit` on one character succeeds exactly for an octal digit,
      and the configuration's digit is that character. */
  lemma OctalBitOfChar(ch: char)
    ensures PermissionsConfig.FromOctalBit(Str([ch])).Ok? <==> IsOctalDigit(ch)
    ensures PermissionsConfig.FromOctalBit(Str([ch])).Ok? ==>
              DigitChar(PermissionsConfig.FromOctalBit(Str([ch])).value.Digit()) == ch
  {
    SingleDigitParse(ch);
    if IsOctalDigit(ch) {
      assert DigitChar(DigitValue(ch)) == ch;
    }
  }

  /** `int(c)` on a one-character string: its value when it is a digit, an error otherwise. */
  lemma SingleDigitParse(c: char)
    ensures ParseInt([c], 10) == if IsDecimalDigit(c) then Some(DigitValue(c)) else None
  {
    assert [c][..0] == [];
    if c == '-' {
      assert [c][1..] == [];
    } else if IsDecimalDigit(c) {
      assert AllDigits([c], 10);
      assert DigitsValue([c], 10) == DigitValue(c);
    } else {
      assert !AllDigits([c], 10) by { assert [c][0] == c; }
    }
  }

  // ---------------------------------------------------------------------------
  // Properties

  /** A configuration is recovered from its own digit, given as an integer or as text. */
  lemma ConfigDigitRoundTrip(c: PermissionsConfig)
    ensures PermissionsConfig.FromOctalBit(Int(c.Digit())) == Ok(c)
    ensures PermissionsConfig.FromOctalBit(Str([DigitChar(c.Digit())])) == Ok(c)
  {
    SingleDigitParse(DigitChar(c.Digit()));
  }

  /** Two configurations with the same digit are the same configuration. */
  lemma DigitInjective(c: PermissionsConfig, e: PermissionsConfig)
    requires c.Digit() == e.Digit()
    ensures c == e
  {
  }

  /** The bits `permissions_code` accumulates are the named property of the
      authority that matches the configuration. */
  lemma ModeBitsAreNamedProperties(a: Authority, c: PermissionsConfig)
    ensures c.Digit() == 0 ==> ModeBits(a, c) == NoPermissions(a)
    ensures c.Digit() == 1 ==> ModeBits(a, c) == Execute(a)
    ensures c.Digit() == 2 ==> ModeBits(a, c) == Write(a)
    ensures c.Digit() == 3 ==> ModeBits(a, c) == WriteExecute(a)
    ensures c.Digit() == 4 ==> ModeBits(a, c) == Read(a)
    ensures c.Digit() == 5 ==> ModeBits(a, c) == ReadExecute(a)
    ensures c.Digit() == 6 ==> ModeBits(a, c) == ReadWrite(a)
    ensures c.Digit() == 7 ==> ModeBits(a, c) == ReadWriteExecute(a)
  {
    match a
    case Owner =>
    case Group =>
    case Others =>
  }

  /** The octal literal of a byte normalises back to its code. */
  lemma OctalLiteralNormalises(b: PermissionsByte)
    ensures PyOctals.FromDecimalReprToOctalInteger(Str(b.PermissionsCodeAsOctalLiteral())) == Ok(b.Code())
  {
    UnixOctals.OctalLiteralRoundTrip(b.Code());
    OctalVersions.SameDecimalRepr(Str(b.PermissionsCodeAsOctalLiteral()));
  }

  /** Every byte's code is a valid mode that `from_octal_integer` keeps unchanged. */
  lemma CodeIsNormalised(b: PermissionsByte)
    ensures PyOctals.FromOctalInteger(Str(b.Code())) == Ok(b.Code())
  {
  }

  /** A mode read into three bytes spells the same mode again, and three bytes
      of the right authorities are recovered from the mode they spell. */
  lemma ModeRoundTrip(p: PermissionsCode)
    requires p.ownerByte.authority == Owner && p.groupByte.authority == Group && p.othersByte.authority == Others
    ensures PermissionsCode.FromOctalInteger(Str(p.Digits())) == Ok(p)
  {
    var m := p.Digits();
    assert PyOctals.FromOctalInteger(Str(m)) == Ok(m);
    var r := PermissionsCode.FromOctalInteger(Str(m));
    assert r.Ok?;
    var q := r.value;
    assert q.ownerByte.Code()[0] == m[0] == p.ownerByte.Code()[0];
    assert q.groupByte.Code()[1] == m[1] == p.groupByte.Code()[1];
    assert q.othersByte.Code()[2] == m[2] == p.othersByte.Code()[2];
    DigitInjective(q.ownerByte.config, p.ownerByte.config);
    DigitInjective(q.groupByte.config, p.groupByte.config);
    DigitInjective(q.othersByte.config, p.othersByte.config);
  }

  /** A default byte grants nothing, whatever its authority. */
  lemma DefaultByteExample(a: Authority)
    ensures PermissionsByte(a, DefaultConfig).Code() == "000"
    ensures PermissionsByte(a, DefaultConfig).PermissionsDescription() == "No permissions"
    ensures PermissionsByte(a, DefaultConfig).PermissionsCodeAsInt() == 0
  {
  }

  /** An owner byte with write permission only. */
  lemma OwnerWriteExample()
    ensures PermissionsByte(Owner, PermissionsConfig(false, true, false)).Code() == "200"
    ensures PermissionsByte(Owner, PermissionsConfig(false, true, false)).PermissionsCodeAsInt() == 200
    ensures PermissionsByte(Owner, PermissionsConfig(false, true, false)).PermissionsCodeAsOctalLiteral() == "0o200"
    ensures PermissionsByte(Owner, PermissionsConfig(false, true, false)).PermissionsDescription() == "Write permission only"
  {
    var b := PermissionsByte(Owner, PermissionsConfig(false, true, false));
    assert b.config.Digit() == 2 && DigitChar(2) == '2';
    assert b.Code() == "200";
    assert b.PermissionsCodeAsOctalLiteral() == "0o" + "200" == "0o200";
    assert Descriptions[2] == "Write permission only";
  }

  /** `from_octal_bit` on the digits the tests use. */
  lemma FromOctalBitExamples()
    ensures PermissionsConfig.FromOctalBit(Str("4")) == Ok(PermissionsConfig(true, false, false))
    ensures PermissionsConfig.FromOctalBit(Int(1)) == Ok(PermissionsConfig(false, false, true))
    ensures PermissionsConfig.FromOctalBit(Int(2)) == Ok(PermissionsConfig(false, true, false))
    ensures PermissionsConfig.FromOctalBit(Str("007")) == Ok(PermissionsConfig(true, true, true))
    ensures PermissionsConfig.FromOctalBit(Int(700)) == Err(DigitOutOfRange)
  {
    ConfigDigitRoundTrip(PermissionsConfig(true, false, false));
    assert [DigitChar(4)] == "4";
    OctalVersions.SameDigitLookup(Str("007"));
    UnixOctals.OctalBitExamples();
  }
}
