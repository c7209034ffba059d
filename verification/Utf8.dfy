/** UTF-8: the bytes of a text, each a character below 256 (section 3 of RFC 3629). */
module Utf8 {

  function Byte(n: int): char
    requires 0 <= n < 256
  {
    n as char
  }

  /** The one to four bytes of a character. */
  function BytesOfChar(c: char): string {
    var n := c as int;
    if n < 0x80 then [c]
    else if n < 0x800 then [Byte(0xc0 + n / 0x40), Byte(0x80 + n % 0x40)]
    else if n < 0x1_0000 then [Byte(0xe0 + n / 0x1000), Byte(0x80 + n / 0x40 % 0x40), Byte(0x80 + n % 0x40)]
    else
      [Byte(0xf0 + n / 0x4_0000), Byte(0x80 + n / 0x1000 % 0x40), Byte(0x80 + n / 0x40 % 0x40), Byte(0x80 + n % 0x40)]
  }

  function BytesOf(s: string): string {
    if s == "" then "" else BytesOfChar(s[0]) + BytesOf(s[1..])
  }
}
