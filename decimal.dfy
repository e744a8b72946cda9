/**
  The decimal text of a non-negative integer, as `Number.prototype.toString()`
  writes it for the task ids of this program: digits only, no sign, no leading
  zero. The drag payload is compared with this text by plain string equality,
  so the interesting facts are that the text determines the number and that
  only canonical digit strings are ever produced.
 */
module Decimal {

  predicate IsDigit(c: char) {
    '0' <= c <= '9'
  }

  predicate AllDigits(s: string) {
    forall i :: 0 <= i < |s| ==> IsDigit(s[i])
  }

  /** A digit string as `toString` writes it: non-empty and without a leading zero. */
  predicate IsCanonical(s: string) {
    |s| >= 1 && AllDigits(s) && (s[0] == '0' ==> |s| == 1)
  }

  function DigitValue(c: char): (d: nat)
    requires IsDigit(c)
    ensures d < 10
  {
    c as int - '0' as int
  }

  function DigitChar(d: nat): (c: char)
    requires d < 10
    ensures IsDigit(c) && DigitValue(c) == d
    ensures d != 0 ==> c != '0'
  {
    (d + '0' as int) as char
  }

  lemma DigitCharOfValue(c: char)
    requires IsDigit(c)
    ensures DigitChar(DigitValue(c)) == c
  {
  }

  /** The text `n.toString()` produces for a non-negative integer `n`. */
  function ToDecimal(n: nat): (s: string)
    ensures IsCanonical(s)
    ensures n < 10 <==> |s| == 1
  {
    if n < 10 then [DigitChar(n)] else ToDecimal(n / 10) + [DigitChar(n % 10)]
  }

  /** The number a digit string denotes (reference reading, most significant digit first). */
  function Parse(s: string): nat
    requires AllDigits(s)
  {
    if |s| == 0 then 0 else 10 * Parse(s[..|s| - 1]) + DigitValue(s[|s| - 1])
  }

  /** Reading back the text of `n` gives `n`. */
  lemma {:induction false} ParseToDecimal(n: nat)
    ensures Parse(ToDecimal(n)) == n
  {
    var s := ToDecimal(n);
    if n >= 10 {
      ParseToDecimal(n / 10);
      assert s[..|s| - 1] == ToDecimal(n / 10);
    }
  }

  /** A canonical digit string without a leading zero denotes a positive number. */
  lemma {:induction false} ParsePositive(s: string)
    requires AllDigits(s) && |s| >= 1 && s[0] != '0'
    ensures Parse(s) >= 1
  {
    if |s| > 1 {
      ParsePositive(s[..|s| - 1]);
    }
  }

  /** Every canonical digit string is the text of the number it denotes. */
  lemma {:induction false} ToDecimalParse(s: string)
    requires IsCanonical(s)
    ensures ToDecimal(Parse(s)) == s
  {
    var last := s[|s| - 1];
    if |s| == 1 {
      DigitCharOfValue(last);
      assert s == [last];
    } else {
      var p := s[..|s| - 1];
      assert IsCanonical(p);
      ParsePositive(p);
      ToDecimalParse(p);
      var n := Parse(s);
      assert n / 10 == Parse(p) && n % 10 == DigitValue(last);
      DigitCharOfValue(last);
      assert s == p + [last];
    }
  }

  /** Distinct numbers have distinct texts. */
  lemma ToDecimalInjective(m: nat, n: nat)
    requires ToDecimal(m) == ToDecimal(n)
    ensures m == n
  {
    ParseToDecimal(m);
    ParseToDecimal(n);
  }

  /**
    A string equals the text of `n` exactly when it is a canonical digit
    string denoting `n`: a leading zero, a sign or surrounding blanks never match.
   */
  lemma DecimalMatchIff(n: nat, s: string)
    ensures ToDecimal(n) == s <==> IsCanonical(s) && Parse(s) == n
  {
    if ToDecimal(n) == s {
      ParseToDecimal(n);
    }
    if IsCanonical(s) && Parse(s) == n {
      ToDecimalParse(s);
    }
  }
}
