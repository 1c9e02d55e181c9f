/** Numbers as text. */
module Decimals {
  function Digit(d: nat): char
    requires d < 10
  {
    "0123456789"[d]
  }

  function Decimal(n: nat): string {
    if n < 10 then [Digit(n)] else Decimal(n / 10) + [Digit(n % 10)]
  }

  lemma {:induction false} DecimalLengths(n: nat)
    ensures |Decimal(n)| <= |Decimal(n + 1)| <= |Decimal(n)| + 1
  {
    if n >= 9 {
      if n == 9 {
        assert Decimal(10) == Decimal(1) + [Digit(0)];
      } else {
        assert (n + 1) / 10 == n / 10 || (n + 1) / 10 == n / 10 + 1;
        DecimalLengths(n / 10);
      }
    }
  }
}
