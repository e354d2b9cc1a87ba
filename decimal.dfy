// Decimal rendering of the drawn identifier number, as strconv.Itoa does it
// for a non-negative value: no sign, no leading zeros, at least one digit.

module Decimal {

  /** The id generator draws a number in [0, MAX_DRAW). */
  const MAX_DRAW: nat := 1000000

  predicate IsDigit(c: char) {
    '0' <= c <= '9'
  }

  /** A non-empty string made only of decimal digits. */
  predicate IsDecimal(s: string) {
    |s| > 0 && forall k :: 0 <= k < |s| ==> IsDigit(s[k])
  }

  function DigitValue(c: char): nat
    requires IsDigit(c)
  {
    c as int - '0' as int
  }

  function DigitChar(d: nat): (c: char)
    requires d < 10
    ensures IsDigit(c) && DigitValue(c) == d
  {
    ('0' as int + d) as char
  }

  function Pow10(k: nat): nat {
    if k == 0 then 1 else 10 * Pow10(k - 1)
  }

  /** The decimal representation of n, most significant digit first. */
  function Itoa(n: nat): (s: string)
    ensures IsDecimal(s)
    ensures s[0] == '0' ==> n == 0
  {
    if n < 10 then [DigitChar(n)] else Itoa(n / 10) + [DigitChar(n % 10)]
  }

  /** Reads a string of digits back as a number; the inverse of Itoa. */
  function ParseDecimal(s: string): nat
    requires forall k :: 0 <= k < |s| ==> IsDigit(s[k])
  {
    if |s| == 0 then 0 else 10 * ParseDecimal(s[..|s| - 1]) + DigitValue(s[|s| - 1])
  }

  lemma {:induction false} ParseItoa(n: nat)
    ensures ParseDecimal(Itoa(n)) == n
  {
    if n >= 10 {
      var s := Itoa(n);
      assert s[..|s| - 1] == Itoa(n / 10);
      ParseItoa(n / 10);
    }
  }

  /** Distinct draws give distinct identifiers. */
  lemma ItoaInjective(a: nat, b: nat)
    ensures Itoa(a) == Itoa(b) <==> a == b
  {
    ParseItoa(a);
    ParseItoa(b);
  }

  lemma {:induction false} ItoaLength(n: nat, k: nat)
    requires 1 <= k && n < Pow10(k)
    ensures |Itoa(n)| <= k
  {
    if n >= 10 {
      assert k >= 2;
      assert n / 10 < Pow10(k - 1);
      ItoaLength(n / 10, k - 1);
    }
  }

  /** Every identifier the generator can produce is 1 to 6 decimal digits. */
  lemma DrawnId(n: nat)
    requires n < MAX_DRAW
    ensures IsDecimal(Itoa(n)) && |Itoa(n)| <= 6
  {
    assert Pow10(6) == MAX_DRAW;
    ItoaLength(n, 6);
  }
}
