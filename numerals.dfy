/** The pieces of Python's text and number built-ins that the permission
    library relies on: `str(n)`, `format(n, 'o')`, `int(s)` / `int(s, 8)`,
    `str.zfill` and `str.strip`, written out as functions over `string`. */
module Numerals {

  datatype Option<T> = None | Some(value: T)

  predicate IsDecimalDigit(c: char) { '0' <= c <= '9' }

  predicate IsOctalDigit(c: char) { '0' <= c <= '7' }

  function DigitValue(c: char): (v: nat)
    requires IsDecimalDigit(c)
    ensures v < 10
  {
    (c as int - '0' as int) as nat
  }

  function DigitChar(d: nat): (c: char)
    requires d < 10
    ensures IsDecimalDigit(c) && DigitValue(c) == d
  {
    ('0' as int + d) as char
  }

  /** Every character of `s` is an ASCII digit of value below `base`. */
  predicate AllDigits(s: string, base: nat) {
    forall i :: 0 <= i < |s| ==> IsDecimalDigit(s[i]) && DigitValue(s[i]) < base
  }

  /** A non-empty run of digits of `base`. */
  predicate IsDigitString(s: string, base: nat) {
    |s| >= 1 && AllDigits(s, base)
  }

  function Pow(b: nat, k: nat): nat {
    if k == 0 then 1 else b * Pow(b, k - 1)
  }

  /** The digits of `n` in `base`, most significant first and without leading
      zeros ("0" for zero). */
  function Digits(n: nat, base: nat): (s: string)
    requires 2 <= base <= 10
    ensures IsDigitString(s, base)
    ensures n > 0 ==> s[0] != '0'
    decreases n
  {
    if n < base then [DigitChar(n)]
    else
      DivModStep(n, base);
      Digits(n / base, base) + [DigitChar(n % base)]
  }

  lemma DivModStep(n: nat, b: nat)
    requires 2 <= b <= n
    ensures 1 <= n / b < n && n % b < b && n == b * (n / b) + n % b
  {
  }

  /** The value of a digit string read in `base` (Horner's rule from the last digit). */
  function DigitsValue(s: string, base: nat): nat
    requires AllDigits(s, base)
  {
    if s == [] then 0 else DigitsValue(s[..|s| - 1], base) * base + DigitValue(s[|s| - 1])
  }

  /** Python `str(n)` for an `int`. */
  function DecimalText(n: int): string {
    if n < 0 then "-" + Digits(-n, 10) else Digits(n, 10)
  }

  /** Python `format(n, 'o')`: base-8 digits, with a leading '-' for negatives. */
  function OctalText(n: int): string {
    if n < 0 then "-" + Digits(-n, 8) else Digits(n, 8)
  }

  predicate StartsWith(s: string, prefix: string) {
    |prefix| <= |s| && s[..|prefix|] == prefix
  }

  /** The unsigned part of Python's `int(s, base)`; in base 8 an optional "0o"
      prefix is accepted, as `int` does. */
  function ParseUnsigned(s: string, base: nat): Option<nat> {
    var body := if base == 8 && StartsWith(s, "0o") then s[2..] else s;
    if IsDigitString(body, base) then Some(DigitsValue(body, base)) else None
  }

  /** Python `int(s, base)` for base 10 or 8: an optional '-', then the unsigned part. */
  function ParseInt(s: string, base: nat): Option<int> {
    if |s| > 0 && s[0] == '-' then
      match ParseUnsigned(s[1..], base)
      case None => None
      case Some(v) => Some(-(v as int))
    else
      match ParseUnsigned(s, base)
      case None => None
      case Some(v) => Some(v)
  }

  function Zeros(k: nat): (z: string)
    ensures |z| == k && forall i :: 0 <= i < k ==> z[i] == '0'
  {
    seq(k, _ => '0')
  }

  /** Python `s.zfill(width)`: pad with '0' on the left to `width`, keeping a
      leading sign in front of the padding. */
  function ZFill(s: string, width: nat): string {
    if |s| >= width then s
    else if |s| > 0 && (s[0] == '+' || s[0] == '-') then [s[0]] + Zeros(width - |s|) + s[1..]
    else Zeros(width - |s|) + s
  }

  function StripLeft(s: string, c: char): (r: string)
    ensures |r| <= |s| && r == s[|s| - |r|..]
    ensures r == [] || r[0] != c
  {
    if |s| > 0 && s[0] == c then StripLeft(s[1..], c) else s
  }

  function StripRight(s: string, c: char): (r: string)
    ensures |r| <= |s| && r == s[..|r|]
    ensures r == [] || r[|r| - 1] != c
  {
    if |s| > 0 && s[|s| - 1] == c then StripRight(s[..|s| - 1], c) else s
  }

  /** Python `s.strip(c)`: drop every `c` at both ends. */
  function Strip(s: string, c: char): string {
    StripRight(StripLeft(s, c), c)
  }

  // ---------------------------------------------------------------------------
  // Properties

  /** Reading back the digits of `n` gives `n`. */
  lemma {:induction false} DigitsRoundTrip(n: nat, base: nat)
    requires 2 <= base <= 10
    ensures DigitsValue(Digits(n, base), base) == n
    decreases n
  {
    if n >= base {
      DivModStep(n, base);
      var q, r := n / base, n % base;
      var s := Digits(q, base);
      assert Digits(n, base) == s + [DigitChar(r)];
      DigitsRoundTrip(q, base);
      LastDigitStep(s, DigitChar(r), base, q, n);
    }
  }

  lemma LastDigitStep(s: string, c: char, base: nat, q: nat, n: nat)
    requires AllDigits(s, base) && IsDecimalDigit(c) && DigitValue(c) < base
    requires DigitsValue(s, base) == q && n == base * q + DigitValue(c)
    ensures AllDigits(s + [c], base) && DigitsValue(s + [c], base) == n
  {
    AppendDigitValue(s, c, base);
  }

  /** Appending a digit multiplies the value by the base and adds the digit. */
  lemma AppendDigitValue(s: string, c: char, base: nat)
    requires AllDigits(s, base) && IsDecimalDigit(c) && DigitValue(c) < base
    ensures AllDigits(s + [c], base)
    ensures DigitsValue(s + [c], base) == DigitsValue(s, base) * base + DigitValue(c)
  {
    var t := s + [c];
    assert t[..|t| - 1] == s;
  }

  lemma DivBelow(n: nat, b: nat, p: nat)
    requires b >= 1
    ensures n / b < p <==> n < b * p
  {
    var q, r := n / b, n % b;
    assert n == b * q + r && 0 <= r < b;
    if q < p {
      assert b * q <= b * (p - 1) by { MulMonotone(b, q, p - 1); }
    } else {
      assert b * p <= b * q by { MulMonotone(b, p, q); }
    }
  }

  lemma MulMonotone(b: nat, x: nat, y: nat)
    requires x <= y
    ensures b * x <= b * y
  {
    assert b * y == b * x + b * (y - x);
  }

  lemma {:induction false} PowAtLeastBase(b: nat, k: nat)
    requires b >= 1 && k >= 1
    ensures Pow(b, k) >= b
  {
    if k > 1 {
      PowAtLeastBase(b, k - 1);
      MulMonotone(b, 1, Pow(b, k - 1));
    }
  }

  /** `n` has at most `k` digits in `base` exactly when `n < base^k`. */
  lemma {:induction false} DigitsLength(n: nat, base: nat, k: nat)
    requires 2 <= base <= 10 && k >= 1
    ensures |Digits(n, base)| <= k <==> n < Pow(base, k)
    decreases n
  {
    if n < base {
      PowAtLeastBase(base, k);
    } else {
      DivModStep(n, base);
      var q := n / base;
      assert |Digits(n, base)| == |Digits(q, base)| + 1;
      if k == 1 {
        assert Pow(base, 1) == base;
      } else {
        DigitsLength(q, base, k - 1);
        DivBelow(n, base, Pow(base, k - 1));
        assert Pow(base, k) == base * Pow(base, k - 1);
      }
    }
  }

  lemma {:induction false} ZerosValue(k: nat, base: nat)
    requires 2 <= base <= 10
    ensures AllDigits(Zeros(k), base) && DigitsValue(Zeros(k), base) == 0
  {
    if k > 0 {
      ZerosValue(k - 1, base);
      assert Zeros(k)[..k - 1] == Zeros(k - 1);
    }
  }

  /** Leading zeros do not change the value of a digit string. */
  lemma {:induction false} LeadingZerosValue(k: nat, s: string, base: nat)
    requires 2 <= base <= 10 && AllDigits(s, base)
    ensures AllDigits(Zeros(k) + s, base)
    ensures DigitsValue(Zeros(k) + s, base) == DigitsValue(s, base)
  {
    ZerosValue(k, base);
    if s != [] {
      var t := Zeros(k) + s;
      LeadingZerosValue(k, s[..|s| - 1], base);
      assert t[..|t| - 1] == Zeros(k) + s[..|s| - 1];
    } else {
      assert Zeros(k) + s == Zeros(k);
    }
  }

  /** The value of a three-digit string in `base`, by Horner's rule. */
  lemma ThreeDigitsValue(m: string, base: nat)
    requires |m| == 3 && AllDigits(m, base)
    ensures DigitsValue(m, base) == (DigitValue(m[0]) * base + DigitValue(m[1])) * base + DigitValue(m[2])
  {
    assert m[..|m| - 1] == m[..2];
    assert DigitsValue(m, base) == DigitsValue(m[..2], base) * base + DigitValue(m[2]);
    assert m[..2][..1] == m[..1];
    assert DigitsValue(m[..2], base) == DigitsValue(m[..1], base) * base + DigitValue(m[1]);
    assert m[..1][..0] == [];
    assert DigitsValue(m[..1], base) == DigitValue(m[0]);
  }

  /** `str(n)` has between one and three characters exactly when -99 <= n <= 999. */
  lemma DecimalTextLength(n: int)
    ensures 1 <= |DecimalText(n)|
    ensures |DecimalText(n)| <= 3 <==> -99 <= n <= 999
  {
    if n < 0 { DigitsLength(-n, 10, 2); } else { DigitsLength(n, 10, 3); }
  }

  /** `format(n, 'o')` has between one and three characters exactly when -63 <= n <= 511. */
  lemma OctalTextLength(n: int)
    ensures 1 <= |OctalText(n)|
    ensures |OctalText(n)| <= 3 <==> -63 <= n <= 511
  {
    if n < 0 { DigitsLength(-n, 8, 2); } else { DigitsLength(n, 8, 3); }
  }

  /** `int(str(n)) == n`. */
  lemma DecimalTextParses(n: int)
    ensures ParseInt(DecimalText(n), 10) == Some(n)
  {
    DigitsParse(if n < 0 then -n else n);
    if n < 0 {
      NegativeTextParses(Digits(-n, 10), -n);
    } else {
      assert IsDecimalDigit(Digits(n, 10)[0]);
    }
  }

  /** `int(s)` reads the decimal digits of `n` as `n`. */
  lemma DigitsParse(n: nat)
    ensures ParseUnsigned(Digits(n, 10), 10) == Some(n)
  {
    DigitsRoundTrip(n, 10);
  }

  lemma NegativeTextParses(s: string, v: nat)
    requires ParseUnsigned(s, 10) == Some(v)
    ensures ParseInt("-" + s, 10) == Some(-(v as int))
  {
    assert ("-" + s)[1..] == s;
  }
}
