/** Decimal text. */
module DecimalText {
  function Dec(n: nat): string {
    if n < 10 then ['0' + n as char] else Dec(n / 10) + ['0' + (n % 10) as char]
  }

  function Val(s: string): int {
    if s == "" then 0 else 10 * Val(s[..|s| - 1]) + (s[|s| - 1] as int - '0' as int)
  }

  lemma {:induction false} ValOfDec(n: nat)
    ensures Val(Dec(n)) == n
    ensures Dec(n) != "" && '-' !in Dec(n)
    ensures |Dec(n)| == 1 <==> n < 10
  {
    if n < 10 {
      assert Dec(n)[..0] == "";
    } else {
      ValOfDec(n / 10);
      assert Dec(n)[..|Dec(n)| - 1] == Dec(n / 10);
    }
  }
}
