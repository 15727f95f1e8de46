/** Decimal rendering of unsigned integers, as Rust's `u64::to_string` produces it,
    together with the parser that inverts it. */
module Decimal {

  predicate IsDigit(c: char) {
    '0' <= c <= '9'
  }

  predicate AllDigits(s: string) {
    forall i :: 0 <= i < |s| ==> IsDigit(s[i])
  }

  /** The form `to_string` produces: at least one digit and no leading zero
      (a single "0" is the only string that starts with '0'). */
  predicate Canonical(s: string) {
    && |s| >= 1
    && AllDigits(s)
    && (s[0] == '0' ==> |s| == 1)
  }

  function DigitChar(d: nat): (c: char)
    requires d < 10
    ensures IsDigit(c)
  {
    ('0' as int + d) as char
  }

  function DigitValue(c: char): (d: nat)
    requires IsDigit(c)
    ensures d < 10 && DigitChar(d) == c
  {
    c as int - '0' as int
  }

  /** The decimal digits of `n`, most significant first. */
  function Digits(n: nat): (s: string)
    ensures Canonical(s)
    ensures s[0] == '0' <==> n == 0
    decreases n
  {
    if n < 10 then [DigitChar(n)]
    else Digits(n / 10) + [DigitChar(n % 10)]
  }

  /** The number a string of digits denotes. */
  function ParseDecimal(s: string): nat
    requires AllDigits(s)
  {
    if |s| == 0 then 0
    else ParseDecimal(s[..|s| - 1]) * 10 + DigitValue(s[|s| - 1])
  }

  /** Parsing undoes rendering. */
  lemma {:induction false} ParseDigits(n: nat)
    ensures ParseDecimal(Digits(n)) == n
    decreases n
  {
    var s := Digits(n);
    if n >= 10 {
      var prefix := Digits(n / 10);
      assert s[..|s| - 1] == prefix;
      ParseDigits(n / 10);
    }
  }

  /** A canonical string whose first digit is not zero denotes at least that digit. */
  lemma {:induction false} ParseAtLeastLeading(s: string)
    requires |s| >= 1 && AllDigits(s)
    ensures ParseDecimal(s) >= DigitValue(s[0])
    decreases |s|
  {
    if |s| > 1 {
      var prefix := s[..|s| - 1];
      assert prefix[0] == s[0];
      ParseAtLeastLeading(prefix);
    }
  }

  /** Rendering undoes parsing on canonical strings: every canonical string is the
      rendering of exactly one number. */
  lemma {:induction false} DigitsOfParse(s: string)
    requires Canonical(s)
    ensures Digits(ParseDecimal(s)) == s
    decreases |s|
  {
    if |s| > 1 {
      var prefix := s[..|s| - 1];
      var last := DigitValue(s[|s| - 1]);
      assert prefix[0] == s[0];
      assert Canonical(prefix);
      ParseAtLeastLeading(prefix);
      var n := ParseDecimal(s);
      assert n == ParseDecimal(prefix) * 10 + last;
      assert n >= 10;
      assert n / 10 == ParseDecimal(prefix) && n % 10 == last;
      DigitsOfParse(prefix);
      assert s == prefix + [s[|s| - 1]];
    }
  }

  /** Two numbers render alike exactly when they are equal. */
  lemma DigitsInjective(a: nat, b: nat)
    ensures Digits(a) == Digits(b) <==> a == b
  {
    if Digits(a) == Digits(b) {
      ParseDigits(a);
      ParseDigits(b);
    }
  }
}
