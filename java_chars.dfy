/**
 * Java's 16-bit `char` and `String`.  The keyboard works on UTF-16 code units:
 * `StringBuilder` edits, `(char) primaryCode` casts and single-character
 * `String` keys of its lookup tables.
 */
module JavaChars {

  /** One UTF-16 code unit, the value range of a Java `char`. */
  newtype JChar = c: int | 0 <= c < 0x1_0000

  /** A Java `String` (or the contents of a `StringBuilder`). */
  type JString = seq<JChar>

  /** The narrowing cast `(char) code`: Java keeps the low 16 bits of the int. */
  function ToChar(code: int): (c: JChar)
    ensures 0 <= code < 0x1_0000 ==> c as int == code
    ensures (code - c as int) % 0x1_0000 == 0
  {
    (code % 0x1_0000) as JChar
  }

  /** The code units of a Dafny string literal; used for the ASCII token strings of the tables. */
  function Units(s: string): (u: JString)
    ensures |u| == |s|
    ensures forall i :: 0 <= i < |s| && s[i] as int < 0x1_0000 ==> u[i] as int == s[i] as int
  {
    seq(|s|, i requires 0 <= i < |s| => (s[i] as int % 0x1_0000) as JChar)
  }

  const Colon: JChar := 0x3A
}
