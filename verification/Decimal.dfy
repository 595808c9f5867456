/** Canonical decimal integers: the only spelling the frame parser takes for a number. */
module Decimal {

  predicate IsDigit(c: char) {
    '0' <= c <= '9'
  }

  predicate AllDigits(s: string) {
    forall i :: 0 <= i < |s| ==> IsDigit(s[i])
  }

  /** The pattern ^(0|[1-9][0-9]*)$. */
  predicate IsCanonical(s: string) {
    s == "0" || (s != "" && AllDigits(s) && s[0] != '0')
  }

  function DigitOf(n: nat): char
    requires n < 10
  {
    '0' + n as char
  }

  function ValueOf(s: string): nat
    requires AllDigits(s)
  {
    if s == "" then 0 else ValueOf(s[..|s| - 1]) * 10 + (s[|s| - 1] as int - '0' as int)
  }

  function Print(n: nat): string {
    if n < 10 then [DigitOf(n)] else Print(n / 10) + [DigitOf(n % 10)]
  }

  lemma {:induction false} PrintIsCanonical(n: nat)
    ensures IsCanonical(Print(n)) && AllDigits(Print(n)) && ValueOf(Print(n)) == n
    ensures n > 0 ==> Print(n)[0] != '0'
  {
    var s := Print(n);
    if n < 10 {
      assert s[..0] == "";
    } else {
      PrintIsCanonical(n / 10);
      assert s[..|s| - 1] == Print(n / 10);
    }
  }

  lemma {:induction false} CanonicalIsPrinted(s: string)
    requires IsCanonical(s)
    ensures AllDigits(s) && Print(ValueOf(s)) == s
    ensures s[0] != '0' ==> ValueOf(s) > 0
  {
    var front := s[..|s| - 1];
    if |s| == 1 {
      assert front == "";
    } else {
      CanonicalIsPrinted(front);
      assert s == front + [s[|s| - 1]];
    }
  }

  /** Number of digits, bounded by any power of ten above the number. */
  lemma {:induction false} PrintLength(n: nat, k: nat)
    requires 0 < k && n < Pow10(k)
    ensures |Print(n)| <= k
  {
    if n >= 10 {
      PrintLength(n / 10, k - 1);
    }
  }

  function Pow10(k: nat): nat {
    if k == 0 then 1 else 10 * Pow10(k - 1)
  }
}
