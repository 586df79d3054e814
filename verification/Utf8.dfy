/** What the valid byte texts are: the encodings of sequences of characters, by section 3 of RFC 3629. */
module Utf8 {
  import opened Truncation

  // A code point that is a character: not a surrogate.
  type Character = c: int | 0 <= c <= 0xD7FF || 0xE000 <= c <= 0x10FFFF witness 0

  // The shortest form: one byte below 0x80, two below 0x800, three below 0x10000, four from there on; six bits in each
  // byte after the first.
  function Encode(c: Character): (s: seq<Byte>)
    ensures 1 <= |s| <= 4
  {
    var high, higher, highest := c / 0x40, c / 0x40 / 0x40, c / 0x40 / 0x40 / 0x40;
    if c < 0x80 then
      var first: Byte := c;
      [first]
    else if c < 0x800 then [0xC0 + high, Low(c)]
    else if c < 0x1_0000 then [0xE0 + higher, Low(high), Low(c)]
    else [0xF0 + highest, Low(higher), Low(high), Low(c)]
  }

  function Low(bits: nat): Byte {
    0x80 + bits % 0x40
  }

  function EncodeAll(cs: seq<Character>): seq<Byte> {
    if cs == [] then [] else Encode(cs[0]) + EncodeAll(cs[1..])
  }

  lemma EncodedIsChar(c: Character, rest: seq<Byte>)
    ensures CharLen(Encode(c) + rest) == |Encode(c)|
  {
    if c >= 0x1_0000 {
      FourBytes(c);
    } else if c >= 0x800 {
      ThreeBytes(c);
    }
  }

  lemma ThreeBytes(c: Character)
    requires 0x800 <= c < 0x1_0000
    ensures var s := Encode(c); Three(s) && s[0] >= 0xE0
  {
    var high := c / 0x40;
    var higher := high / 0x40;
    assert high == higher * 0x40 + high % 0x40 && c == high * 0x40 + c % 0x40;
  }

  lemma FourBytes(c: Character)
    requires c >= 0x1_0000
    ensures var s := Encode(c); Four(s) && s[0] >= 0xF0
  {
    var high := c / 0x40;
    var higher := high / 0x40;
    var highest := higher / 0x40;
    assert higher == highest * 0x40 + higher % 0x40 && high == higher * 0x40 + high % 0x40 &&
           c == high * 0x40 + c % 0x40;
  }

  // The character at the front.
  lemma CharIsEncoded(s: seq<Byte>) returns (c: Character)
    requires CharLen(s) > 0
    ensures Encode(c) == s[..CharLen(s)]
  {
    var n := CharLen(s);
    if n == 1 {
      c := s[0];
    } else if n == 2 {
      c := TwoDecodes(s);
    } else if n == 3 {
      c := ThreeDecodes(s);
    } else {
      c := FourDecodes(s);
    }
  }

  lemma TwoDecodes(s: seq<Byte>) returns (c: Character)
    requires Two(s)
    ensures Encode(c) == s[..2]
  {
    var a: int, b: int := s[0] - 0xC0, s[1] - 0x80;
    c := a * 0x40 + b;
    assert c / 0x40 == a && c % 0x40 == b;
  }

  lemma ThreeDecodes(s: seq<Byte>) returns (c: Character)
    requires Three(s)
    ensures Encode(c) == s[..3]
  {
    var a: int, b: int, d: int := s[0] - 0xE0, s[1] - 0x80, s[2] - 0x80;
    var high: int := a * 0x40 + b;
    c := high * 0x40 + d;
    assert c / 0x40 == high && c % 0x40 == d && high / 0x40 == a && high % 0x40 == b;
  }

  lemma FourDecodes(s: seq<Byte>) returns (c: Character)
    requires Four(s)
    ensures Encode(c) == s[..4]
  {
    var a: int, b: int, d: int, e: int := s[0] - 0xF0, s[1] - 0x80, s[2] - 0x80, s[3] - 0x80;
    var higher: int := a * 0x40 + b;
    var high: int := higher * 0x40 + d;
    c := high * 0x40 + e;
    assert c / 0x40 == high && c % 0x40 == e && high / 0x40 == higher && high % 0x40 == d;
    assert higher / 0x40 == a && higher % 0x40 == b;
  }

  // Every text of characters is valid ...
  lemma {:induction false} EncodedIsValid(cs: seq<Character>)
    ensures Valid(EncodeAll(cs))
  {
    hide Encode;
    if cs != [] {
      EncodedIsChar(cs[0], EncodeAll(cs[1..]));
      EncodedIsValid(cs[1..]);
      assert EncodeAll(cs)[|Encode(cs[0])|..] == EncodeAll(cs[1..]);
    }
  }

  // ... and every valid text is the encoding of some characters.
  lemma {:induction false} ValidIsEncoded(s: seq<Byte>) returns (cs: seq<Character>)
    requires Valid(s)
    ensures EncodeAll(cs) == s
    decreases |s|
  {
    hide Encode, CharLen;
    if s == [] {
      cs := [];
    } else {
      var n := CharLen(s);
      var c := CharIsEncoded(s);
      var rest := ValidIsEncoded(s[n..]);
      cs := [c] + rest;
      assert cs[1..] == rest && s == s[..n] + s[n..];
    }
  }
}
