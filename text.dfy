/** The two Python string conversions the handlers use when they format text. */
module Text {

  function Digit(d: nat): char
    requires d < 10
  {
    "0123456789"[d]
  }

  /** Decimal digits of a natural number, most significant first. */
  function NatToString(n: nat): string
    decreases n
  {
    if n < 10 then [Digit(n)] else NatToString(n / 10) + [Digit(n % 10)]
  }

  /** `str(i)` of a Python int. */
  function IntToString(i: int): string
  {
    if i < 0 then "-" + NatToString(-i) else NatToString(i)
  }

  function Upper(c: char): char
  {
    if 'a' <= c <= 'z' then (c as int - 'a' as int + 'A' as int) as char else c
  }

  function Lower(c: char): char
  {
    if 'A' <= c <= 'Z' then (c as int - 'A' as int + 'a' as int) as char else c
  }

  function LowerAll(s: string): string
  {
    if s == [] then [] else [Lower(s[0])] + LowerAll(s[1..])
  }

  /** `s.capitalize()` on ASCII text: first character upper case, the rest lower case. */
  function Capitalize(s: string): string
  {
    if s == [] then [] else [Upper(s[0])] + LowerAll(s[1..])
  }
}
