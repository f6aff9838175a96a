/** UTF-8 as section 3 of RFC 3629 defines it, decoded strictly. */
module Utf8 {
  import opened Wrappers

  import opened Messages

  function EncodeChar(c: char): (bytes: seq<byte>)
    ensures 1 <= |bytes| <= 4
  {
    var n := c as int;
    if n < 0x80 then [n as byte]
    else if n < 0x800 then [(0xC0 + n / 64) as byte, (0x80 + n % 64) as byte]
    else if n < 0x1_0000 then
      [(0xE0 + n / 4096) as byte, (0x80 + n / 64 % 64) as byte, (0x80 + n % 64) as byte]
    else
      [(0xF0 + n / 262144) as byte, (0x80 + n / 4096 % 64) as byte, (0x80 + n / 64 % 64) as byte,
       (0x80 + n % 64) as byte]
  }

  function Encode(text: string): seq<byte> {
    if |text| == 0 then [] else EncodeChar(text[0]) + Encode(text[1..])
  }

  predicate Continues(bytes: seq<byte>, k: nat) { k < |bytes| && 0x80 <= bytes[k] < 0xC0 }

  /** The six bits a continuation byte adds. */
  function Low(bytes: seq<byte>, k: nat): int
    requires k < |bytes|
  {
    bytes[k] as int - 0x80
  }

  predicate IsScalar(n: int) { 0 <= n < 0xD800 || 0xE000 <= n < 0x11_0000 }

  /** How many bytes the first sequence claims to take, and the number they write; overlong forms,
      surrogates and anything past the last scalar value are not sequences. */
  function First(bytes: seq<byte>): Option<(char, nat)>
    requires bytes != []
  {
    var lead := bytes[0] as int;
    if lead < 0x80 then Some((lead as char, 1))
    else if 0xC2 <= lead < 0xE0 && Continues(bytes, 1) then
      Checked((lead - 0xC0) * 64 + Low(bytes, 1), 0x80, 2)
    else if 0xE0 <= lead < 0xF0 && Continues(bytes, 1) && Continues(bytes, 2) then
      Checked((lead - 0xE0) * 4096 + Low(bytes, 1) * 64 + Low(bytes, 2), 0x800, 3)
    else if 0xF0 <= lead < 0xF5 && Continues(bytes, 1) && Continues(bytes, 2) && Continues(bytes, 3) then
      Checked((lead - 0xF0) * 262144 + Low(bytes, 1) * 4096 + Low(bytes, 2) * 64 + Low(bytes, 3), 0x1_0000, 4)
    else None
  }

  function Checked(n: int, least: int, length: nat): Option<(char, nat)> {
    if least <= n && IsScalar(n) then Some((n as char, length)) else None
  }

  function Decode(bytes: seq<byte>): Option<string>
    decreases |bytes|
  {
    if bytes == [] then Some("")
    else match First(bytes)
      case None => None
      case Some((c, length)) =>
        if length == 0 || length > |bytes| then None
        else match Decode(bytes[length..])
          case None => None
          case Some(rest) => Some([c] + rest)
  }

  /** The base-64 digits a multi-byte sequence is written with. */
  lemma Digits(n: int)
    requires 0 <= n < 0x11_0000
    ensures n == n / 64 * 64 + n % 64
    ensures n / 64 == n / 4096 * 64 + n / 64 % 64
    ensures n / 4096 == n / 262144 * 64 + n / 4096 % 64
  {
  }

  /** Each character takes the row of the table in section 3 of RFC 3629 that its number falls into, and the
      free bits of that row, read as one number, are the character's. */
  lemma EncodesByTable(c: char)
    ensures var n, b := c as int, EncodeChar(c);
            if n <= 0x7F then b == [n as byte]
            else if n <= 0x7FF then
              && |b| == 2 && 0xC0 <= b[0] < 0xE0 && 0x80 <= b[1] < 0xC0
              && n == (b[0] as int - 0xC0) * 64 + (b[1] as int - 0x80)
            else if n <= 0xFFFF then
              && |b| == 3 && 0xE0 <= b[0] < 0xF0 && 0x80 <= b[1] < 0xC0 && 0x80 <= b[2] < 0xC0
              && n == (b[0] as int - 0xE0) * 4096 + (b[1] as int - 0x80) * 64 + (b[2] as int - 0x80)
            else
              && |b| == 4 && 0xF0 <= b[0] < 0xF8 && 0x80 <= b[1] < 0xC0 && 0x80 <= b[2] < 0xC0 && 0x80 <= b[3] < 0xC0
              && n == (b[0] as int - 0xF0) * 262144 + (b[1] as int - 0x80) * 4096
                      + (b[2] as int - 0x80) * 64 + (b[3] as int - 0x80)
  {
    Digits(c as int);
  }

  lemma FirstOfTwo(c: char, rest: seq<byte>)
    requires 0x80 <= c as int < 0x800
    ensures First(EncodeChar(c) + rest) == Some((c, 2))
  {
    var n, bytes := c as int, EncodeChar(c) + rest;
    Digits(n);
    assert bytes[0] as int == 0xC0 + n / 64 && bytes[1] as int == 0x80 + n % 64;
    assert Checked(n, 0x80, 2) == Some((c, 2));
  }

  lemma FirstOfThree(c: char, rest: seq<byte>)
    requires 0x800 <= c as int < 0x1_0000
    ensures First(EncodeChar(c) + rest) == Some((c, 3))
  {
    var n, bytes := c as int, EncodeChar(c) + rest;
    Digits(n);
    assert bytes[0] as int == 0xE0 + n / 4096 && bytes[1] as int == 0x80 + n / 64 % 64;
    assert bytes[2] as int == 0x80 + n % 64;
    assert Checked(n, 0x800, 3) == Some((c, 3));
  }

  lemma {:induction false} FirstOfFour(c: char, rest: seq<byte>)
    requires 0x1_0000 <= c as int
    ensures First(EncodeChar(c) + rest) == Some((c, 4))
  {
    var n, bytes := c as int, EncodeChar(c) + rest;
    Digits(n);
    assert bytes[0] as int == 0xF0 + n / 262144 && bytes[1] as int == 0x80 + n / 4096 % 64;
    assert bytes[2] as int == 0x80 + n / 64 % 64 && bytes[3] as int == 0x80 + n % 64;
    assert Checked(n, 0x1_0000, 4) == Some((c, 4));
  }

  lemma {:induction false} FirstOfEncoded(c: char, rest: seq<byte>)
    ensures First(EncodeChar(c) + rest) == Some((c, |EncodeChar(c)|))
  {
    var n := c as int;
    if n < 0x80 {
      assert (EncodeChar(c) + rest)[0] as int == n;
    } else if n < 0x800 {
      FirstOfTwo(c, rest);
    } else if n < 0x1_0000 {
      FirstOfThree(c, rest);
    } else {
      FirstOfFour(c, rest);
    }
  }

  /** Decoding what was encoded gives back every character. */
  lemma {:induction false} RoundTrip(text: string)
    ensures Decode(Encode(text)) == Some(text)
  {
    if |text| > 0 {
      var head, rest := EncodeChar(text[0]), Encode(text[1..]);
      FirstOfEncoded(text[0], rest);
      RoundTrip(text[1..]);
      assert (head + rest)[|head|..] == rest;
      assert [text[0]] + text[1..] == text;
    }
  }

  lemma TwoAreEncoded(bytes: seq<byte>)
    requires Continues(bytes, 1) && 0xC2 <= bytes[0] < 0xE0
    ensures var n := (bytes[0] as int - 0xC0) * 64 + Low(bytes, 1);
            0x80 <= n < 0x800 && EncodeChar(n as char) == bytes[..2]
  {
    var n := (bytes[0] as int - 0xC0) * 64 + Low(bytes, 1);
    assert n / 64 == bytes[0] as int - 0xC0 && n % 64 == Low(bytes, 1);
  }

  lemma ThreeAreEncoded(bytes: seq<byte>)
    requires Continues(bytes, 1) && Continues(bytes, 2) && 0xE0 <= bytes[0] < 0xF0
    ensures var n := (bytes[0] as int - 0xE0) * 4096 + Low(bytes, 1) * 64 + Low(bytes, 2);
            0x800 <= n && IsScalar(n) ==> EncodeChar(n as char) == bytes[..3]
  {
    var n := (bytes[0] as int - 0xE0) * 4096 + Low(bytes, 1) * 64 + Low(bytes, 2);
    assert n / 64 == (bytes[0] as int - 0xE0) * 64 + Low(bytes, 1) && n % 64 == Low(bytes, 2);
    assert n / 4096 == bytes[0] as int - 0xE0;
  }

  lemma FourAreEncoded(bytes: seq<byte>)
    requires Continues(bytes, 1) && Continues(bytes, 2) && Continues(bytes, 3) && 0xF0 <= bytes[0] < 0xF5
    ensures var n := (bytes[0] as int - 0xF0) * 262144 + Low(bytes, 1) * 4096 + Low(bytes, 2) * 64 + Low(bytes, 3);
            0x1_0000 <= n && IsScalar(n) ==> EncodeChar(n as char) == bytes[..4]
  {
    var n := (bytes[0] as int - 0xF0) * 262144 + Low(bytes, 1) * 4096 + Low(bytes, 2) * 64 + Low(bytes, 3);
    if 0x1_0000 <= n && IsScalar(n) {
      EncodeFour(bytes[0] as int - 0xF0, Low(bytes, 1), Low(bytes, 2), Low(bytes, 3));
      hide EncodeChar;
    }
  }

  lemma EncodeFour(a: nat, b: nat, c: nat, d: nat)
    requires a < 5 && b < 64 && c < 64 && d < 64
    requires var n := a * 262144 + b * 4096 + c * 64 + d; 0x1_0000 <= n && IsScalar(n)
    ensures EncodeChar((a * 262144 + b * 4096 + c * 64 + d) as char)
         == [(0xF0 + a) as byte, (0x80 + b) as byte, (0x80 + c) as byte, (0x80 + d) as byte]
  {
    FourDigits(a, b, c, d);
  }

  /** The digits of a number to the base 64. */
  lemma FourDigits(a: nat, b: nat, c: nat, d: nat)
    requires b < 64 && c < 64 && d < 64
    ensures var n := a * 262144 + b * 4096 + c * 64 + d;
            && n / 64 == a * 4096 + b * 64 + c && n % 64 == d
            && n / 4096 == a * 64 + b && n / 262144 == a
  {
  }

  lemma {:induction false} FirstIsEncoded(bytes: seq<byte>)
    requires bytes != [] && First(bytes).Some?
    ensures var (c, length) := First(bytes).value;
            length <= |bytes| && EncodeChar(c) == bytes[..length]
  {
    var lead := bytes[0];
    if 0xC2 <= lead < 0xE0 { TwoAreEncoded(bytes); }
    if 0xE0 <= lead < 0xF0 { ThreeAreEncoded(bytes); }
    if 0xF0 <= lead < 0xF5 { FourAreEncoded(bytes); }
    if lead < 0x80 { assert EncodeChar(lead as char) == bytes[..1]; }
  }

  lemma EncodeFirst(c: char, rest: string)
    ensures Encode([c] + rest) == EncodeChar(c) + Encode(rest)
  {
    assert ([c] + rest)[1..] == rest;
  }

  lemma DecodeFirst(bytes: seq<byte>)
    requires bytes != [] && Decode(bytes).Some?
    ensures First(bytes).Some?
    ensures var (c, length) := First(bytes).value;
            && 0 < length <= |bytes| && Decode(bytes[length..]).Some?
            && Decode(bytes).value == [c] + Decode(bytes[length..]).value
  {
  }

  /** Only an encoding decodes, and only to what it encodes. */
  lemma {:induction false} DecodeIsExact(bytes: seq<byte>)
    requires Decode(bytes).Some?
    ensures Encode(Decode(bytes).value) == bytes
    decreases |bytes|
  {
    if bytes != [] {
      hide First, EncodeChar, Encode, Decode;
      DecodeFirst(bytes);
      FirstIsEncoded(bytes);
      var (c, length) := First(bytes).value;
      DecodeIsExact(bytes[length..]);
      Rejoin(bytes, c, length, Decode(bytes[length..]).value);
    }
  }

  lemma Rejoin(bytes: seq<byte>, c: char, length: nat, rest: string)
    requires length <= |bytes| && EncodeChar(c) == bytes[..length] && Encode(rest) == bytes[length..]
    ensures Encode([c] + rest) == bytes
  {
    EncodeFirst(c, rest);
  }

  lemma {:induction false} EncodeConcat(a: string, b: string)
    ensures Encode(a + b) == Encode(a) + Encode(b)
  {
    if |a| > 0 {
      assert (a + b)[1..] == a[1..] + b;
      EncodeConcat(a[1..], b);
    } else {
      assert a + b == b;
    }
  }

  /** A byte below 128 in an encoding is that very character, never part of another. */
  lemma {:induction false} AsciiIsItself(text: string, ascii: byte)
    requires ascii < 0x80
    ensures ascii in Encode(text) <==> ascii as char in text
  {
    if |text| > 0 {
      AsciiIsItself(text[1..], ascii);
      assert text == [text[0]] + text[1..];
      assert ascii in EncodeChar(text[0]) <==> ascii as char == text[0];
    }
  }
}
