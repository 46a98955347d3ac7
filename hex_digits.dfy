/** Lower-case hexadecimal digits, as produced by Java's Integer.toHexString on a value in [0, 16). */
module HexDigits {

  predicate IsNibble(v: int) {
    0 <= v < 16
  }

  predicate IsLowerHexDigit(c: char) {
    '0' <= c <= '9' || 'a' <= c <= 'f'
  }

  /** Integer.toHexString(v) for 0 <= v < 16: a single lower-case digit. */
  function HexDigit(v: int): (c: char)
    requires IsNibble(v)
    ensures IsLowerHexDigit(c)
    ensures v < 10 <==> c <= '9'
  {
    if v < 10 then (48 + v) as char else (87 + v) as char
  }

  /** The value of a lower-case hexadecimal digit. */
  function HexValue(c: char): (v: int)
    requires IsLowerHexDigit(c)
    ensures IsNibble(v)
  {
    if c <= '9' then c as int - 48 else c as int - 87
  }

  /** Reading back a digit gives the value it was made from. */
  lemma HexValueOfDigit(v: int)
    requires IsNibble(v)
    ensures HexValue(HexDigit(v)) == v
  {
  }

  /** Every lower-case digit is the digit of its own value. */
  lemma HexDigitOfValue(c: char)
    requires IsLowerHexDigit(c)
    ensures HexDigit(HexValue(c)) == c
  {
  }

  /** Distinct values have distinct digits. */
  lemma HexDigitInjective(v: int, w: int)
    requires IsNibble(v) && IsNibble(w)
    ensures HexDigit(v) == HexDigit(w) <==> v == w
  {
  }
}
