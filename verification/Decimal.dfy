/** Decimal printing and reading of natural numbers (`str(n)` and `int(s)`). */
module Decimal {
  import opened Wrappers

  predicate IsDigit(c: char) {
    '0' <= c <= '9'
  }

  function Print(n: nat): (s: string)
    ensures s != "" && forall c :: c in s ==> IsDigit(c)
  {
    var last := [('0' as int + n % 10) as char];
    if n < 10 then last else Print(n / 10) + last
  }

  function Parse(s: string): Option<nat> {
    if s == "" || !IsDigit(s[|s| - 1]) then None
    else
      var last := s[|s| - 1] as int - '0' as int;
      if |s| == 1 then Some(last)
      else
        var front := Parse(s[..|s| - 1]);
        if front.None? then None else Some(10 * front.value + last)
  }

  lemma {:induction false} ParsePrint(n: nat)
    ensures Parse(Print(n)) == Some(n)
  {
    if n >= 10 {
      ParsePrint(n / 10);
      assert Print(n)[..|Print(n)| - 1] == Print(n / 10);
    }
  }

  /** Digits come most significant first, without leading zeros. */
  lemma PrintIs(n: nat, d: nat)
    requires d < 10
    ensures Print(d) == [('0' as int + d) as char]
    ensures n > 0 ==> Print(10 * n + d) == Print(n) + [('0' as int + d) as char]
  {
  }

  /** For instance. */
  lemma KnownNumbers()
    ensures Print(0) == "0" && Print(1) == "1" && Print(10) == "10" && Print(123) == "123"
  {
    PrintIs(1, 0);
    PrintIs(1, 2);
    PrintIs(12, 3);
  }
}
