/** Decimal rendering of integers as Foundation's `String(format: "%02d", n)` produces it, and
    the parser that reads such a digit string back. */
module DecimalFormat {

  predicate IsDigit(c: char) {
    '0' <= c <= '9'
  }

  predicate AllDigits(s: string) {
    forall i :: 0 <= i < |s| ==> IsDigit(s[i])
  }

  function DigitValue(c: char): (d: nat)
    requires IsDigit(c)
    ensures d < 10
  {
    c as int - '0' as int
  }

  function DigitChar(d: nat): (c: char)
    requires d < 10
    ensures IsDigit(c) && DigitValue(c) == d
  {
    ('0' as int + d) as char
  }

  /** The value of a string of decimal digits, most significant first. */
  function ParseDecimal(s: string): nat
    requires AllDigits(s)
  {
    if s == [] then 0 else ParseDecimal(s[..|s| - 1]) * 10 + DigitValue(s[|s| - 1])
  }

  /** Canonical form of a decimal numeral: at least one digit, no leading zero unless it is "0". */
  predicate Canonical(s: string) {
    |s| >= 1 && AllDigits(s) && (s[0] == '0' ==> |s| == 1)
  }

  /** `%d` of a non-negative value: its decimal digits without padding. */
  function Decimal(n: nat): (s: string)
    ensures Canonical(s)
    decreases n
  {
    if n < 10 then [DigitChar(n)] else Decimal(n / 10) + [DigitChar(n % 10)]
  }

  lemma {:induction false} ParseOfDecimal(n: nat)
    ensures ParseDecimal(Decimal(n)) == n
    decreases n
  {
    if n >= 10 {
      var s := Decimal(n);
      assert s[..|s| - 1] == Decimal(n / 10);
      ParseOfDecimal(n / 10);
    }
  }

  /** A canonical numeral of more than one digit stands for a value of at least 10. */
  lemma {:induction false} CanonicalAtLeastTen(s: string)
    requires Canonical(s) && |s| >= 2
    ensures ParseDecimal(s) >= 10
    decreases |s|
  {
    var p := s[..|s| - 1];
    if |p| >= 2 {
      CanonicalAtLeastTen(p);
    } else {
      assert p == [s[0]] && s[0] != '0';
      assert ParseDecimal(p) == DigitValue(s[0]);
    }
  }

  lemma {:induction false} DecimalOfParse(s: string)
    requires Canonical(s)
    ensures Decimal(ParseDecimal(s)) == s
    decreases |s|
  {
    if |s| == 1 {
      assert s[..0] == [];
    } else {
      var p := s[..|s| - 1];
      var n := ParseDecimal(s);
      CanonicalAtLeastTen(s);
      assert n / 10 == ParseDecimal(p) && n % 10 == DigitValue(s[|s| - 1]);
      DecimalOfParse(p);
      assert s == p + [s[|s| - 1]];
    }
  }

  /** The number of digits of `n` is one exactly below 10, and at most two exactly below 100. */
  lemma {:induction false} DecimalLength(n: nat)
    ensures |Decimal(n)| == 1 <==> n < 10
    ensures |Decimal(n)| <= 2 <==> n < 100
    decreases n
  {
    if n >= 10 {
      assert |Decimal(n)| == |Decimal(n / 10)| + 1;
      DecimalLength(n / 10);
    }
  }

  /** `String(format: "%02d", n)`: minimum width two, zero-padded; a negative value is a minus
      sign followed by its magnitude and is already at least two characters wide. */
  function Format02d(n: int): (s: string)
    ensures |s| >= 2
    ensures n >= 0 ==> AllDigits(s) && ParseDecimal(s) == n
    ensures n >= 0 ==> (|s| == 2 <==> n < 100)
    ensures n >= 0 ==> (s[0] == '0' <==> n < 10)
    ensures n < 0 ==> s[0] == '-' && Canonical(s[1..]) && ParseDecimal(s[1..]) == -n
  {
    if n < 0 then
      ParseOfDecimal(-n);
      var s := "-" + Decimal(-n);
      assert s[1..] == Decimal(-n);
      s
    else if n < 10 then
      var s := "0" + Decimal(n);
      assert s[..1] == "0" && s[..1][..0] == [];
      s
    else
      ParseOfDecimal(n);
      DecimalLength(n);
      Decimal(n)
  }
}
