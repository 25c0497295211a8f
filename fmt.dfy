/** Decimal rendering of unsigned integers, as `fmt.Sprint` writes a `uint`. */
module Fmt {

  /** Go's `uint` on a 64-bit platform. */
  type Uint = n: nat | n < 0x1_0000_0000_0000_0000

  predicate IsDigit(c: char) {
    '0' <= c <= '9'
  }

  predicate AllDigits(s: string) {
    forall i :: 0 <= i < |s| ==> IsDigit(s[i])
  }

  function DigitChar(d: nat): (c: char)
    requires d < 10
    ensures IsDigit(c)
  {
    ('0' as int + d) as char
  }

  function DigitValue(c: char): nat
    requires IsDigit(c)
  {
    c as int - '0' as int
  }

  /** `fmt.Sprint(n)`: the digits of n, most significant first, no leading zero. */
  function Sprint(n: nat): (s: string)
    ensures |s| >= 1 && AllDigits(s)
    ensures s[0] == '0' <==> n == 0
    decreases n
  {
    if n < 10 then [DigitChar(n)] else Sprint(n / 10) + [DigitChar(n % 10)]
  }

  /** The number a string of decimal digits denotes. */
  function ParseDecimal(s: string): nat
    requires AllDigits(s)
    decreases |s|
  {
    if s == [] then 0 else ParseDecimal(s[..|s| - 1]) * 10 + DigitValue(s[|s| - 1])
  }

  /** Reading back the rendering of n gives n: the rendering is n's decimal notation. */
  lemma {:induction false} SprintRoundTrip(n: nat)
    ensures ParseDecimal(Sprint(n)) == n
    decreases n
  {
    var s := Sprint(n);
    if n >= 10 {
      SprintRoundTrip(n / 10);
      assert s[..|s| - 1] == Sprint(n / 10);
    }
  }

  /** Different counts are rendered differently. */
  lemma SprintInjective(m: nat, n: nat)
    requires Sprint(m) == Sprint(n)
    ensures m == n
  {
    SprintRoundTrip(m);
    SprintRoundTrip(n);
  }
}
