/**
 * The conversions of Go's `strconv` package that the program uses: `Atoi` for the
 * day, hour and minute, `Itoa` for the receipt ids, and `ParseFloat` for the total
 * and the prices, here restricted to plain decimals and evaluated exactly.
 */
module Numbers {
  import opened Wrappers
  import opened Text

  /** The byte test `strconv` applies to each digit of a decimal number. */
  predicate IsDecimalDigit(c: char) {
    '0' <= c <= '9'
  }

  predicate AllDigits(s: string) {
    forall i :: 0 <= i < |s| ==> IsDecimalDigit(s[i])
  }

  function DigitValue(c: char): (d: nat)
    requires IsDecimalDigit(c)
    ensures d <= 9
  {
    c as int - '0' as int
  }

  function DigitChar(d: nat): (c: char)
    requires d <= 9
    ensures IsDecimalDigit(c) && DigitValue(c) == d
  {
    ('0' as int + d) as char
  }

  /** The number a string of decimal digits denotes, most significant digit first. */
  function DigitsValue(s: string): nat
    requires AllDigits(s)
    decreases |s|
  {
    if s == [] then 0 else DigitsValue(s[..|s| - 1]) * 10 + DigitValue(s[|s| - 1])
  }

  /**
   * `strconv.Atoi`: an optional `+` or `-` followed by one or more decimal digits,
   * and nothing else (no white space, no underscores).
   */
  function Atoi(s: string): Option<int> {
    if |s| > 0 && (s[0] == '+' || s[0] == '-') then
      var digits := s[1..];
      if |digits| > 0 && AllDigits(digits) then
        var v: int := DigitsValue(digits);
        Some(if s[0] == '-' then -v else v)
      else
        None
    else if |s| > 0 && AllDigits(s) then
      Some(DigitsValue(s))
    else
      None
  }

  /** The decimal rendering of a natural number, without leading zeros. */
  function NatToString(n: nat): (s: string)
    ensures |s| > 0 && AllDigits(s)
    decreases n
  {
    if n < 10 then [DigitChar(n)] else NatToString(n / 10) + [DigitChar(n % 10)]
  }

  /** `strconv.Itoa`. */
  function Itoa(n: int): string {
    if n < 0 then "-" + NatToString(-n) else NatToString(n)
  }

  lemma {:induction false} DigitsValueNatToString(n: nat)
    ensures DigitsValue(NatToString(n)) == n
    decreases n
  {
    if n >= 10 {
      var s := NatToString(n);
      assert s[..|s| - 1] == NatToString(n / 10);
      DigitsValueNatToString(n / 10);
    }
  }

  /** Atoi reads back every number Itoa renders. */
  lemma AtoiItoa(n: int)
    ensures Atoi(Itoa(n)) == Some(n)
  {
    if n < 0 {
      var s := Itoa(n);
      assert s[0] == '-' && s[1..] == NatToString(-n);
      DigitsValueNatToString(-n);
    } else {
      var s := NatToString(n);
      assert IsDecimalDigit(s[0]);
      DigitsValueNatToString(n);
    }
  }

  /** Distinct numbers have distinct renderings. */
  lemma ItoaInjective(m: int, n: int)
    ensures Itoa(m) == Itoa(n) ==> m == n
  {
    AtoiItoa(m);
    AtoiItoa(n);
  }

  /** The value of the digits after a decimal point: `FracValue("25") == 0.25`. */
  function FracValue(s: string): (v: real)
    requires AllDigits(s)
    ensures 0.0 <= v < 1.0
    decreases |s|
  {
    if s == [] then 0.0 else (DigitValue(s[0]) as real + FracValue(s[1..])) / 10.0
  }

  /**
   * An unsigned plain decimal: digits, optionally a point and more digits, with at
   * least one digit in all; its exact value.
   */
  function ParseUnsignedDecimal(s: string): Option<real> {
    var parts := Split(s, '.');
    var whole := parts[0];
    var frac := if |parts| == 2 then parts[1] else [];
    if |parts| <= 2 && |whole| + |frac| > 0 && AllDigits(whole) && AllDigits(frac) then
      Some(DigitsValue(whole) as real + FracValue(frac))
    else
      None
  }

  /**
   * `strconv.ParseFloat(s, 64)` on plain decimals with an optional sign (`"35.35"`,
   * `"-1"`, `"5."`, `".5"`), evaluated exactly; `None` stands for a non-nil error.
   */
  function ParseDecimal(s: string): Option<real> {
    if |s| > 0 && (s[0] == '+' || s[0] == '-') then
      match ParseUnsignedDecimal(s[1..])
      case None => None
      case Some(v) => Some(if s[0] == '-' then -v else v)
    else
      ParseUnsignedDecimal(s)
  }

  /** A string of digits holds no point. */
  lemma DigitsHaveNoPoint(s: string)
    requires AllDigits(s)
    ensures '.' !in s
  {
    forall i | 0 <= i < |s| ensures s[i] != '.' {
      assert IsDecimalDigit(s[i]);
    }
  }

  /** Digits, a point and digits split at the point into the two runs of digits. */
  lemma PointedSplit(whole: string, frac: string)
    requires AllDigits(whole) && AllDigits(frac)
    ensures Split(whole + "." + frac, '.') == [whole, frac]
  {
    DigitsHaveNoPoint(whole);
    DigitsHaveNoPoint(frac);
    SplitAtFirst(whole, frac, '.');
    SplitFree(frac, '.');
  }

  /** Digits, a point and digits: the whole part plus the fraction. */
  lemma ParsePointed(whole: string, frac: string)
    requires |whole| > 0 && AllDigits(whole) && AllDigits(frac)
    ensures ParseDecimal(whole + "." + frac) == Some(DigitsValue(whole) as real + FracValue(frac))
  {
    var s := whole + "." + frac;
    PointedSplit(whole, frac);
    UnsignedOfSplit(s, whole, frac);
    assert s[0] == whole[0] && IsDecimalDigit(whole[0]);
  }

  /** An unsigned decimal whose point separates two runs of digits. */
  lemma UnsignedOfSplit(s: string, whole: string, frac: string)
    requires Split(s, '.') == [whole, frac]
    requires |whole| > 0 && AllDigits(whole) && AllDigits(frac)
    ensures ParseUnsignedDecimal(s) == Some(DigitsValue(whole) as real + FracValue(frac))
  {
    var parts := Split(s, '.');
    assert |parts| == 2 && parts[0] == whole && parts[1] == frac;
  }

  /** `math.Ceil`: the least integer not below `x`. */
  function Ceil(x: real): (n: int)
    ensures x <= n as real < x + 1.0
  {
    -((-x).Floor)
  }

  /** A number of cents in the two-decimal money format the receipts carry (`"35.35"`). */
  function FormatCents(c: nat): string {
    NatToString(c / 100) + "." + [DigitChar(c % 100 / 10), DigitChar(c % 10)]
  }

  /** Two digits after the point denote that many hundredths. */
  lemma CentsFracValue(c: nat)
    ensures FracValue([DigitChar(c % 100 / 10), DigitChar(c % 10)]) == (c % 100) as real / 100.0
  {
    var tens, units := DigitChar(c % 100 / 10), DigitChar(c % 10);
    var frac := [tens, units];
    assert frac[1..] == [units] && [units][1..] == [];
    assert FracValue([units]) == DigitValue(units) as real / 10.0;
    assert FracValue(frac) == (DigitValue(tens) as real + FracValue([units])) / 10.0;
    assert c % 100 == c % 100 / 10 * 10 + c % 10;
  }

  lemma CentsSum(c: nat)
    ensures (c / 100) as real + (c % 100) as real / 100.0 == c as real / 100.0
  {
    assert c == c / 100 * 100 + c % 100;
  }

  /** Reading a two-decimal money string gives exactly its number of hundredths. */
  lemma ParseFormatCents(c: nat)
    ensures ParseDecimal(FormatCents(c)) == Some(c as real / 100.0)
  {
    var whole := NatToString(c / 100);
    var frac := [DigitChar(c % 100 / 10), DigitChar(c % 10)];
    assert FormatCents(c) == whole + "." + frac;
    ParsePointed(whole, frac);
    DigitsValueNatToString(c / 100);
    CentsFracValue(c);
    CentsSum(c);
  }
}
