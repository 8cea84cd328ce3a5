/** Bytes and the UTF-8 encoding of text (RFC 3629, section 4). */
module Bytes {
  newtype byte = x: int | 0 <= x < 256

  predicate Tail(b: byte) { 0x80 <= b <= 0xBF }

  /** The length of the well-formed character `s` starts with, 0 if there is none. */
  function Character(s: seq<byte>): (n: nat)
    ensures n <= |s|
  {
    if |s| >= 1 && s[0] <= 0x7F then 1
    else if |s| >= 2 && 0xC2 <= s[0] <= 0xDF && Tail(s[1]) then 2
    else if |s| >= 3 && 0xE0 <= s[0] <= 0xEF && Tail(s[1]) && Tail(s[2])
            && (s[0] == 0xE0 ==> s[1] >= 0xA0) && (s[0] == 0xED ==> s[1] <= 0x9F) then 3
    else if |s| >= 4 && 0xF0 <= s[0] <= 0xF4 && Tail(s[1]) && Tail(s[2]) && Tail(s[3])
            && (s[0] == 0xF0 ==> s[1] >= 0x90) && (s[0] == 0xF4 ==> s[1] <= 0x8F) then 4
    else 0
  }

  predicate Utf8(s: seq<byte>)
    decreases |s|
  {
    s == [] || (Character(s) > 0 && Utf8(s[Character(s)..]))
  }

  predicate Upper(b: byte) { 0x41 <= b <= 0x5A }
  predicate Lower(b: byte) { 0x61 <= b <= 0x7A }
  predicate DecimalDigit(b: byte) { 0x30 <= b <= 0x39 }
  predicate Alphanumeric(b: byte) { Upper(b) || Lower(b) || DecimalDigit(b) }

  // ---- the same by code points ----

  /** A Unicode scalar value: a code point that is not a surrogate. */
  type Scalar = c: nat | c < 0xD800 || 0xE000 <= c <= 0x10FFFF

  function Continuation(bits: nat): byte
    requires bits < 64
  {
    (0x80 + bits) as byte
  }

  function EncodedScalar(c: Scalar): (s: seq<byte>)
    ensures 1 <= |s| <= 4
  {
    if c < 0x80 then [c as byte]
    else if c < 0x800 then [(0xC0 + c / 0x40) as byte, Continuation(c % 0x40)]
    else if c < 0x1_0000 then
      [(0xE0 + c / 0x1000) as byte, Continuation(c / 0x40 % 0x40), Continuation(c % 0x40)]
    else
      [(0xF0 + c / 0x4_0000) as byte, Continuation(c / 0x1000 % 0x40), Continuation(c / 0x40 % 0x40),
       Continuation(c % 0x40)]
  }

  function Utf8Encoded(text: seq<Scalar>): seq<byte> {
    if text == [] then [] else EncodedScalar(text[0]) + Utf8Encoded(text[1..])
  }

  lemma ScalarIsCharacter(c: Scalar, rest: seq<byte>)
    ensures Character(EncodedScalar(c) + rest) == |EncodedScalar(c)|
  {
    if c < 0x80 {
    } else if c < 0x800 {
      assert 2 <= c / 0x40 < 0x20;
    } else if c < 0x1_0000 {
      ThreeBytes(c, rest);
    } else {
      FourBytes(c, rest);
    }
  }

  lemma ThreeBytes(c: Scalar, rest: seq<byte>)
    requires 0x800 <= c < 0x1_0000
    ensures Character(EncodedScalar(c) + rest) == 3
  {
    assert 0 <= c / 0x1000 < 0x10 && c / 0x40 == c / 0x1000 * 0x40 + c / 0x40 % 0x40;
  }

  lemma FourBytes(c: Scalar, rest: seq<byte>)
    requires c >= 0x1_0000
    ensures Character(EncodedScalar(c) + rest) == 4
  {
    assert 0 <= c / 0x4_0000 <= 4 && c / 0x1000 == c / 0x4_0000 * 0x40 + c / 0x1000 % 0x40;
  }

  /** The code point a well-formed character encodes. */
  function ScalarOf(s: seq<byte>): Scalar
    requires Character(s) > 0
  {
    if Character(s) == 1 then s[0] as int
    else if Character(s) == 2 then (s[0] as int - 0xC0) * 0x40 + (s[1] as int - 0x80)
    else if Character(s) == 3 then
      (s[0] as int - 0xE0) * 0x1000 + (s[1] as int - 0x80) * 0x40 + (s[2] as int - 0x80)
    else
      (s[0] as int - 0xF0) * 0x4_0000 + (s[1] as int - 0x80) * 0x1000 + (s[2] as int - 0x80) * 0x40
      + (s[3] as int - 0x80)
  }

  lemma Bits2(x: int, y: int)
    requires 0 <= y < 0x40
    ensures var c := x * 0x40 + y; c / 0x40 == x && c % 0x40 == y
  {
  }

  lemma Bits3(x: int, y: int, z: int)
    requires 0 <= y < 0x40 && 0 <= z < 0x40
    ensures var c := x * 0x1000 + y * 0x40 + z; c / 0x1000 == x && c / 0x40 % 0x40 == y && c % 0x40 == z
  {
    var c := x * 0x1000 + y * 0x40 + z;
    assert c / 0x40 == x * 0x40 + y;
  }

  lemma Bits4(w: int, x: int, y: int, z: int)
    requires 0 <= x < 0x40 && 0 <= y < 0x40 && 0 <= z < 0x40
    ensures var c := w * 0x4_0000 + x * 0x1000 + y * 0x40 + z;
      c / 0x4_0000 == w && c / 0x1000 % 0x40 == x && c / 0x40 % 0x40 == y && c % 0x40 == z
  {
    var c := w * 0x4_0000 + x * 0x1000 + y * 0x40 + z;
    assert c / 0x40 == w * 0x1000 + x * 0x40 + y;
    assert c / 0x1000 == w * 0x40 + x;
  }

  lemma CharacterIsScalar(s: seq<byte>)
    requires Character(s) > 0
    ensures EncodedScalar(ScalarOf(s)) == s[..Character(s)]
  {
    var n := Character(s);
    if n == 1 {
      assert s[..1] == [s[0]];
    } else if n == 2 {
      Bits2(s[0] as int - 0xC0, s[1] as int - 0x80);
      assert s[..2] == [s[0], s[1]];
    } else if n == 3 {
      Bits3(s[0] as int - 0xE0, s[1] as int - 0x80, s[2] as int - 0x80);
      assert s[..3] == [s[0], s[1], s[2]];
    } else {
      Bits4(s[0] as int - 0xF0, s[1] as int - 0x80, s[2] as int - 0x80, s[3] as int - 0x80);
      assert s[..4] == [s[0], s[1], s[2], s[3]];
    }
  }

  /** Text is UTF-8 exactly if it is some sequence of Unicode scalar values encoded (RFC 3629, section 3). */
  lemma Utf8ExactlyWhen(s: seq<byte>)
    ensures Utf8(s) <==> exists text :: Utf8Encoded(text) == s
  {
    if Utf8(s) { var text := ScalarsOf(s); }
    forall text | Utf8Encoded(text) == s ensures Utf8(s) { EncodedIsUtf8(text); }
  }

  lemma {:induction false} ScalarsOf(s: seq<byte>) returns (text: seq<Scalar>)
    requires Utf8(s)
    ensures Utf8Encoded(text) == s
    decreases |s|
  {
    text := [];
    if s != [] {
      var n := Character(s);
      CharacterIsScalar(s);
      var rest := ScalarsOf(s[n..]);
      text := [ScalarOf(s)] + rest;
      assert text[1..] == rest && s[..n] + s[n..] == s;
    }
  }

  lemma {:induction false} EncodedIsUtf8(text: seq<Scalar>)
    ensures Utf8(Utf8Encoded(text))
    decreases |text|
  {
    if text != [] {
      var rest := Utf8Encoded(text[1..]);
      ScalarIsCharacter(text[0], rest);
      EncodedIsUtf8(text[1..]);
      assert Utf8Encoded(text)[|EncodedScalar(text[0])|..] == rest;
    }
  }
}
