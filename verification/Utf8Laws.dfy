/** The texts that pass for UTF-8 are those made of the bytes of characters (section 3 of RFC 3629). */
module Utf8Laws {
  import opened Utf8
  import opened Uris

  /** A text that begins with the bytes of a character is measured by them. */
  lemma CharacterIsMeasured(c: char, rest: string)
    ensures Utf8Length(BytesOfChar(c) + rest) == |BytesOfChar(c)|
  {
  }

  lemma {:induction false} BytesAreValid(s: string)
    ensures ValidUtf8(BytesOf(s))
  {
    if s != "" {
      BytesAreValid(s[1..]);
      CharacterIsMeasured(s[0], BytesOf(s[1..]));
      var b := BytesOf(s);
      assert b[|BytesOfChar(s[0])|..] == BytesOf(s[1..]);
    }
  }

  /** The character that the first bytes of a text stand for. */
  function FirstChar(b: string): char
    requires b != "" && Utf8Length(b) > 0
  {
    var n := Utf8Length(b);
    if n == 1 then b[0]
    else if n == 2 then ((b[0] as int - 0xc0) * 0x40 + (b[1] as int - 0x80)) as char
    else if n == 3 then ((b[0] as int - 0xe0) * 0x1000 + (b[1] as int - 0x80) * 0x40 + (b[2] as int - 0x80)) as char
    else
      ((b[0] as int - 0xf0) * 0x4_0000 + (b[1] as int - 0x80) * 0x1000 + (b[2] as int - 0x80) * 0x40
       + (b[3] as int - 0x80)) as char
  }

  lemma TwoParts(a: nat, b: nat)
    requires b < 0x40
    ensures (a * 0x40 + b) / 0x40 == a && (a * 0x40 + b) % 0x40 == b
  {
  }

  lemma ThreeParts(a: nat, b: nat, c: nat)
    requires b < 0x40 && c < 0x40
    ensures var n := a * 0x1000 + b * 0x40 + c; n / 0x1000 == a && n / 0x40 % 0x40 == b && n % 0x40 == c
  {
    TwoParts(a * 0x40 + b, c);
    TwoParts(a, b);
  }

  lemma FourParts(a: nat, b: nat, c: nat, d: nat)
    requires b < 0x40 && c < 0x40 && d < 0x40
    ensures var n := a * 0x4_0000 + b * 0x1000 + c * 0x40 + d;
            n / 0x4_0000 == a && n / 0x1000 % 0x40 == b && n / 0x40 % 0x40 == c && n % 0x40 == d
  {
    ThreeParts(a * 0x40 + b, c, d);
    TwoParts(a, b);
  }

  lemma FirstCharHasItsBytes(b: string)
    requires b != "" && Utf8Length(b) > 0
    ensures Utf8Length(b) <= |b| && BytesOfChar(FirstChar(b)) == b[..Utf8Length(b)]
  {
    var n := Utf8Length(b);
    if n == 2 {
      TwoParts(b[0] as int - 0xc0, b[1] as int - 0x80);
    } else if n == 3 {
      ThreeParts(b[0] as int - 0xe0, b[1] as int - 0x80, b[2] as int - 0x80);
    } else if n == 4 {
      FourParts(b[0] as int - 0xf0, b[1] as int - 0x80, b[2] as int - 0x80, b[3] as int - 0x80);
    }
  }

  function Chars(b: string): string
    requires ValidUtf8(b)
  {
    if b == "" then "" else [FirstChar(b)] + Chars(b[Utf8Length(b)..])
  }

  lemma {:induction false} CharsHaveTheBytes(b: string)
    requires ValidUtf8(b)
    ensures BytesOf(Chars(b)) == b
  {
    if b != "" {
      hide FirstChar, BytesOfChar;
      var n := Utf8Length(b);
      CharsHaveTheBytes(b[n..]);
      FirstCharHasItsBytes(b);
      var s := Chars(b);
      assert s[0] == FirstChar(b) && s[1..] == Chars(b[n..]);
      assert b == b[..n] + b[n..];
    }
  }

  /** Exactly the encodings of texts pass. */
  lemma ValidIff(b: string)
    ensures ValidUtf8(b) <==> exists s :: b == BytesOf(s)
  {
    if ValidUtf8(b) {
      CharsHaveTheBytes(b);
    }
    if s :| b == BytesOf(s) {
      BytesAreValid(s);
    }
  }
}
