/** Decimal rendering of naturals, its inverse, and the string helpers Python gives
    for free (`str.startswith`, `'\n'.join`). */
module Text {

  predicate IsDigit(c: char) {
    '0' <= c <= '9'
  }

  predicate AllDigits(s: string) {
    forall i :: 0 <= i < |s| ==> IsDigit(s[i])
  }

  function DigitChar(d: nat): (c: char)
    requires d < 10
    ensures IsDigit(c)
  {
    (('0' as int) + d) as char
  }

  function DigitValue(c: char): nat
    requires IsDigit(c)
  {
    (c as int) - ('0' as int)
  }

  /** Python's `str(n)` / `f'{n}'` for a non-negative integer. */
  function NatToString(n: nat): (s: string)
    ensures 1 <= |s| && AllDigits(s)
    ensures s[0] == '0' ==> n == 0
  {
    if n < 10 then [DigitChar(n)] else NatToString(n / 10) + [DigitChar(n % 10)]
  }

  /** Reads a string of decimal digits back as a number (the empty string reads as 0). */
  function ParseNat(s: string): nat
    requires AllDigits(s)
  {
    if s == [] then 0 else ParseNat(s[..|s| - 1]) * 10 + DigitValue(s[|s| - 1])
  }

  /** Decimal rendering loses nothing: parsing it gives the number back. */
  lemma {:induction false} ParseNatToString(n: nat)
    ensures ParseNat(NatToString(n)) == n
  {
    var s := NatToString(n);
    if n < 10 {
      assert s[..|s| - 1] == [];
    } else {
      assert s[..|s| - 1] == NatToString(n / 10);
      ParseNatToString(n / 10);
    }
  }

  /** A digit string without a leading zero (other than "0" itself). */
  predicate Canonical(s: string) {
    |s| >= 1 && AllDigits(s) && (s[0] == '0' ==> |s| == 1)
  }

  lemma {:induction false} ParseNatPositive(s: string)
    requires |s| >= 1 && AllDigits(s) && s[0] != '0'
    ensures ParseNat(s) >= 1
  {
    if |s| > 1 {
      ParseNatPositive(s[..|s| - 1]);
    }
  }

  /** The only canonical digit string of a number is its decimal rendering. */
  lemma {:induction false} NatToStringParseNat(s: string)
    requires Canonical(s)
    ensures NatToString(ParseNat(s)) == s
  {
    if |s| > 1 {
      var p := s[..|s| - 1];
      assert Canonical(p);
      ParseNatPositive(p);
      NatToStringParseNat(p);
      assert s == p + [s[|s| - 1]];
    }
  }

  /** Python's `'{:0>w}'`-style zero padding, as done by the `02d` format spec. */
  function PadZeros(s: string, width: nat): (r: string)
    ensures |r| == if |s| < width then width else |s|
    ensures r[|r| - |s|..] == s
    ensures forall i :: 0 <= i < |r| - |s| ==> r[i] == '0'
  {
    if |s| < width then seq(width - |s|, _ => '0') + s else s
  }

  predicate StartsWith(s: string, prefix: string) {
    |prefix| <= |s| && s[..|prefix|] == prefix
  }

  /** Python's `sep.join(lines)`. */
  function Join(lines: seq<string>, sep: string): string
  {
    if |lines| == 0 then ""
    else if |lines| == 1 then lines[0]
    else Join(lines[..|lines| - 1], sep) + sep + lines[|lines| - 1]
  }
}
