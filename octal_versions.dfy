/** The two versions of the octal module compute the same results: for every
    input each function of `py_perms/octals.py` returns the same string or the
    same error kind as its counterpart in `unix_perms/octals.py`. */
module OctalVersions {
  import opened Numerals
  import opened OctalTypes
  import Unix = UnixOctals
  import Py = PyOctals

  lemma SameDigitTable()
    ensures Py.OctalBitConfigurations == Unix.OctalBitConfigurations
  {
  }

  lemma SameBitConfig(d: int)
    ensures Py.GetOctalBitConfig(d) == Unix.GetOctalBitConfig(d)
  {
  }

  lemma SameDigitLookup(x: Input)
    ensures Py.FromOctalBitToConfig(x) == Unix.FromOctalBitToConfig(x)
  {
  }

  lemma SameValidation(s: string)
    ensures Py.OctalIntegerValidation(s) == Unix.OctalIntegerValidation(s)
  {
  }

  lemma SameConversion(n: int)
    ensures Py.ToOctalStrReprConversion(n) == Unix.ToOctalStrReprConversion(n)
  {
    SameValidation(OctalText(n));
  }

  lemma SameDecimalRepr(x: Input)
    ensures Py.FromDecimalReprToOctalInteger(x) == Unix.FromDecimalReprToOctalInteger(x)
  {
    match x
    case Int(n) => SameValidation(OctalText(n));
    case Str(s) =>
      var base := if StartsWith(s, "0o") then 8 else 10;
      match ParseInt(s, base)
      case None =>
      case Some(n) => SameValidation(OctalText(n));
  }

  lemma SameOctalInteger(x: Input)
    ensures Py.FromOctalInteger(x) == Unix.FromOctalInteger(x)
    ensures Py.IsOctalInteger(x) == Unix.IsOctalInteger(x)
  {
    match x
    case Int(n) => SameValidation(DecimalText(n));
    case Str(s) => SameValidation(s);
  }
}
