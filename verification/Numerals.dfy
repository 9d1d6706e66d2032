/** Numbers written in decimal. */
module Numerals {
  function Digits(n: nat): (s: string)
    ensures s != "" && '\n' !in s
  {
    var d := ["0123456789"[n % 10]];
    if n < 10 then d else Digits(n / 10) + d
  }

  function DigitOf(c: char): nat { if '0' <= c <= '9' then (c as int) - ('0' as int) else 0 }

  function ValueOf(s: string): nat { if s == "" then 0 else 10 * ValueOf(s[..|s| - 1]) + DigitOf(s[|s| - 1]) }

  /** What was written reads back as the number. */
  lemma {:induction false} DigitsRead(n: nat)
    ensures ValueOf(Digits(n)) == n
  {
    var d := ["0123456789"[n % 10]];
    assert DigitOf(d[0]) == n % 10;
    if n >= 10 {
      DigitsRead(n / 10);
      assert (Digits(n / 10) + d)[..|Digits(n / 10)|] == Digits(n / 10);
    } else {
      assert d[..0] == "";
    }
  }
}
