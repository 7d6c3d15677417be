/** What several components share: an optional value and decimal digits. */
module Common {

  datatype Option<+T> = None | Some(value: T)

  predicate IsDigit(c: char) {
    '0' <= c <= '9'
  }

  predicate AllDigits(s: string) {
    s == "" || (IsDigit(s[|s| - 1]) && AllDigits(s[..|s| - 1]))
  }

  function ValueOf(s: string): nat
    requires AllDigits(s)
  {
    if s == "" then 0 else ValueOf(s[..|s| - 1]) * 10 + (s[|s| - 1] as int - '0' as int)
  }

  /** A number in decimal, which reads back as itself. */
  function Digits(n: nat): (s: string)
    ensures s != "" && AllDigits(s) && ValueOf(s) == n
  {
    if n < 10 then ["0123456789"[n]]
    else
      var front, last := Digits(n / 10), "0123456789"[n % 10];
      assert (front + [last])[..|front|] == front;
      front + [last]
  }
}
