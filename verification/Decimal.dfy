/** Canonical decimal strings: how the SDK keeps 64-bit and 128-bit values exact (packages/core/src/schema.ts:3-6). */
module Decimal {
  import opened MachineInt
  import opened RouterMath

  predicate IsDigit(c: char) {
    '0' <= c <= '9'
  }

  predicate AllDigits(s: string) {
    forall i :: 0 <= i < |s| ==> IsDigit(s[i])
  }

  /** The schema's pattern: a lone zero, or digits that do not start with one. */
  predicate Canonical(s: string) {
    |s| > 0 && AllDigits(s) && (s[0] == '0' ==> |s| == 1)
  }

  function DigitValue(c: char): nat {
    if IsDigit(c) then c as int - '0' as int else 0
  }

  /** `BigInt(s)`, used on strings the schema has accepted. */
  function Parse(s: string): nat {
    if s == "" then 0 else 10 * Parse(s[..|s| - 1]) + DigitValue(s[|s| - 1])
  }

  function Digit(n: nat): char
    requires n < 10
  {
    ('0' as nat + n) as char
  }

  function PrintNat(n: nat): string {
    if n < 10 then [Digit(n)] else PrintNat(n / 10) + [Digit(n % 10)]
  }

  /** `String(n)` on a big integer. */
  function Print(n: int): string {
    if n < 0 then "-" + PrintNat(-n) else PrintNat(n)
  }

  lemma {:induction false} PrintIsCanonical(n: nat)
    ensures Canonical(PrintNat(n)) && (PrintNat(n)[0] == '0' ==> n == 0)
  {
    if n >= 10 {
      PrintIsCanonical(n / 10);
    }
  }

  /** Printing and reading back is the identity. */
  lemma {:induction false} ParsePrint(n: nat)
    ensures Canonical(PrintNat(n)) && Parse(PrintNat(n)) == n
  {
    PrintIsCanonical(n);
    if n >= 10 {
      ParsePrint(n / 10);
      assert PrintNat(n)[..|PrintNat(n)| - 1] == PrintNat(n / 10);
    }
  }

  lemma {:induction false} ParsePositive(s: string)
    requires Canonical(s) && s[0] != '0'
    ensures Parse(s) > 0
  {
    if |s| > 1 {
      ParsePositive(s[..|s| - 1]);
    }
  }

  /** Reading and printing back is the identity on canonical strings, and only those: no two spell the same number. */
  lemma {:induction false} PrintParse(s: string)
    requires Canonical(s)
    ensures PrintNat(Parse(s)) == s
  {
    if |s| > 1 {
      ParsePositive(s[..|s| - 1]);
      PrintParse(s[..|s| - 1]);
      assert s == s[..|s| - 1] + [s[|s| - 1]];
      var last := DigitValue(s[|s| - 1]);
      assert Parse(s) / 10 == Parse(s[..|s| - 1]) && Parse(s) % 10 == last;
    }
  }

  lemma PrintIntParse(s: string)
    requires Canonical(s)
    ensures Print(Parse(s)) == s
  {
    PrintParse(s);
  }

  lemma DropDigit(a: nat, d: nat, p: int)
    requires d < 10 && p > 0
    ensures (10 * a + d) / (10 * p) == a / p
  {
    DivBounds(a, p);
    var q := a / p;
    assert q * (10 * p) == 10 * (q * p) && (q + 1) * (10 * p) == 10 * ((q + 1) * p);
    DivUnique(10 * a + d, 10 * p, q);
  }

  /** Each character is that digit of the number, counted from the right. */
  lemma {:induction false} DigitsAreDecimal(s: string, i: nat)
    requires AllDigits(s) && i < |s|
    ensures Pow10(i) > 0 && Parse(s) / Pow10(i) % 10 == s[|s| - 1 - i] as int - '0' as int
    decreases |s|
  {
    var front, d := s[..|s| - 1], DigitValue(s[|s| - 1]);
    Pow10Positive(i);
    if i > 0 {
      DigitsAreDecimal(front, i - 1);
      DropDigit(Parse(front), d, Pow10(i - 1));
    }
  }
}
