/** Decimal rendering of integers as Python's `str(int)` writes them: the
    digits of the magnitude with no leading zeros, `0` for zero, and a
    leading `-` for negative values. `ParseInt` is its inverse on
    canonical numerals. */
module Decimal {
  import opened Wrappers

  predicate IsDigit(c: char) {
    '0' <= c <= '9'
  }

  predicate AllDigits(s: string) {
    forall i :: 0 <= i < |s| ==> IsDigit(s[i])
  }

  /** A non-empty digit string without a superfluous leading zero. */
  predicate IsCanonicalDigits(s: string) {
    |s| >= 1 && AllDigits(s) && (s[0] == '0' ==> |s| == 1)
  }

  /** The numerals `str` produces for an int: canonical digits, or `-`
      followed by canonical digits other than `0`. */
  predicate IsDecimalNumeral(s: string) {
    || IsCanonicalDigits(s)
    || (|s| >= 2 && s[0] == '-' && s[1] != '0' && IsCanonicalDigits(s[1..]))
  }

  function DigitChar(d: nat): (c: char)
    requires d < 10
    ensures IsDigit(c)
  {
    ('0' as int + d) as char
  }

  function DigitValue(c: char): (d: nat)
    requires IsDigit(c)
    ensures d < 10
    ensures DigitChar(d) == c
  {
    c as int - '0' as int
  }

  /** Decimal digits of a natural number, most significant first. */
  function NatToDecimal(n: nat): (s: string)
    ensures IsCanonicalDigits(s)
    ensures s[0] == '0' <==> n == 0
    decreases n
  {
    if n < 10 then [DigitChar(n)] else NatToDecimal(n / 10) + [DigitChar(n % 10)]
  }

  /** `str(n)` for a Python int. */
  function IntToDecimal(n: int): (s: string)
    ensures IsDecimalNumeral(s)
    ensures s[0] == '-' <==> n < 0
    ensures forall i :: 0 <= i < |s| ==> s[i] == '-' || IsDigit(s[i])
  {
    if n < 0 then "-" + NatToDecimal(-n) else NatToDecimal(n)
  }

  /** Value of a string of digits, most significant first. */
  function ParseNat(s: string): nat
    requires AllDigits(s)
  {
    if s == [] then 0 else ParseNat(s[..|s| - 1]) * 10 + DigitValue(s[|s| - 1])
  }

  /** Reads a numeral of the form `str(int)` produces; anything else
      (empty, stray characters, leading zeros, `-0`) is rejected. */
  function ParseInt(s: string): (r: Option<int>)
    ensures r.Some? <==> IsDecimalNumeral(s)
  {
    if |s| >= 2 && s[0] == '-' && s[1] != '0' && IsCanonicalDigits(s[1..]) then Some(-(ParseNat(s[1..]) as int))
    else if IsCanonicalDigits(s) then Some(ParseNat(s))
    else None
  }

  lemma {:induction false} ParseNatOfNatToDecimal(n: nat)
    ensures ParseNat(NatToDecimal(n)) == n
    decreases n
  {
    var s := NatToDecimal(n);
    if n < 10 {
      assert s == [DigitChar(n)];
      assert s[..0] == [];
    } else {
      ParseNatOfNatToDecimal(n / 10);
      assert s[..|s| - 1] == NatToDecimal(n / 10);
    }
  }

  /** A canonical digit string other than `0` has a positive value. */
  lemma {:induction false} ParseNatPositive(s: string)
    requires IsCanonicalDigits(s) && s[0] != '0'
    ensures ParseNat(s) >= 1
    decreases |s|
  {
    if |s| > 1 {
      ParseNatPositive(s[..|s| - 1]);
    } else {
      assert s[..0] == [];
    }
  }

  lemma {:induction false} NatToDecimalOfParseNat(s: string)
    requires IsCanonicalDigits(s)
    ensures NatToDecimal(ParseNat(s)) == s
    decreases |s|
  {
    var init := s[..|s| - 1];
    if |s| == 1 {
      assert init == [];
      assert ParseNat(s) == DigitValue(s[0]);
    } else {
      ParseNatPositive(init);
      NatToDecimalOfParseNat(init);
      var n := ParseNat(s);
      assert n / 10 == ParseNat(init) && n % 10 == DigitValue(s[|s| - 1]);
      assert s == init + [s[|s| - 1]];
    }
  }

  /** `ParseInt` recovers every integer from its rendering. */
  lemma ParseIntOfIntToDecimal(n: int)
    ensures ParseInt(IntToDecimal(n)) == Some(n)
  {
    if n < 0 {
      ParseNatOfNatToDecimal(-n);
      assert IntToDecimal(n)[1..] == NatToDecimal(-n);
    } else {
      ParseNatOfNatToDecimal(n);
    }
  }

  /** Every numeral `ParseInt` accepts is the rendering of its value. */
  lemma IntToDecimalOfParseInt(s: string, n: int)
    requires ParseInt(s) == Some(n)
    ensures IntToDecimal(n) == s
  {
    if |s| >= 2 && s[0] == '-' && s[1] != '0' && IsCanonicalDigits(s[1..]) {
      ParseNatPositive(s[1..]);
      NatToDecimalOfParseNat(s[1..]);
      assert s == "-" + s[1..];
    } else {
      NatToDecimalOfParseNat(s);
    }
  }

  /** Zero, a week number, a negative value and a year, as `str` writes them. */
  lemma IntToDecimalExamples()
    ensures IntToDecimal(0) == "0"
    ensures IntToDecimal(45) == "45"
    ensures IntToDecimal(-3) == "-3"
    ensures IntToDecimal(2024) == "2024"
  {
  }

  /** Distinct integers render differently. */
  lemma IntToDecimalInjective(m: int, n: int)
    requires IntToDecimal(m) == IntToDecimal(n)
    ensures m == n
  {
    ParseIntOfIntToDecimal(m);
    ParseIntOfIntToDecimal(n);
  }
}
