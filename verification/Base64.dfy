/** The standard base64 alphabet with padding (RFC 4648, section 4), decoded strictly. */
module Base64 {
  import opened Wrappers
  import opened Bytes

  const PAD: byte := 0x3D

  function Digit(v: int): byte
    requires 0 <= v < 64
  {
    if v < 26 then (0x41 + v) as byte
    else if v < 52 then (0x61 + v - 26) as byte
    else if v < 62 then (0x30 + v - 52) as byte
    else if v == 62 then 0x2B
    else 0x2F
  }

  predicate IsDigit(c: byte) { Alphanumeric(c) || c == 0x2B || c == 0x2F }

  function ValueOf(c: byte): (v: int)
    requires IsDigit(c)
    ensures 0 <= v < 64 && Digit(v) == c
  {
    if Upper(c) then c as int - 0x41
    else if Lower(c) then c as int - 0x61 + 26
    else if DecimalDigit(c) then c as int - 0x30 + 52
    else if c == 0x2B then 62
    else 63
  }

  function Quad(a: int, b: int, c: int): seq<byte>
    requires 0 <= a < 256 && 0 <= b < 256 && 0 <= c < 256
  {
    [Digit(a / 4), Digit(a % 4 * 16 + b / 16), Digit(b % 16 * 4 + c / 64), Digit(c % 64)]
  }

  function Triple(w: int, x: int, y: int, z: int): seq<byte>
    requires 0 <= w < 64 && 0 <= x < 64 && 0 <= y < 64 && 0 <= z < 64
  {
    [(w * 4 + x / 16) as byte, (x % 16 * 16 + y / 4) as byte, (y % 4 * 64 + z) as byte]
  }

  function Encode(s: seq<byte>): seq<byte>
    decreases |s|
  {
    if s == [] then []
    else if |s| == 1 then
      var a := s[0] as int;
      [Digit(a / 4), Digit(a % 4 * 16), PAD, PAD]
    else if |s| == 2 then
      var a, b := s[0] as int, s[1] as int;
      [Digit(a / 4), Digit(a % 4 * 16 + b / 16), Digit(b % 16 * 4), PAD]
    else Quad(s[0] as int, s[1] as int, s[2] as int) + Encode(s[3..])
  }

  /** Padding may only end the text, and the bits it leaves over must be zero. */
  function Decode(t: seq<byte>): Option<seq<byte>>
    decreases |t|
  {
    if t == [] then Some([])
    else if |t| < 4 || !IsDigit(t[0]) || !IsDigit(t[1]) then None
    else
      var w, x := ValueOf(t[0]), ValueOf(t[1]);
      if t[2..] == [PAD, PAD] then
        if x % 16 == 0 then Some([(w * 4 + x / 16) as byte]) else None
      else if !IsDigit(t[2]) then None
      else
        var y := ValueOf(t[2]);
        if t[3..] == [PAD] then
          if y % 4 == 0 then Some([(w * 4 + x / 16) as byte, (x % 16 * 16 + y / 4) as byte]) else None
        else if !IsDigit(t[3]) then None
        else
          var rest := Decode(t[4..]);
          if rest.None? then None
          else Some(Triple(w, x, y, ValueOf(t[3])) + rest.value)
  }

  lemma DigitValue(v: int)
    requires 0 <= v < 64
    ensures IsDigit(Digit(v)) && ValueOf(Digit(v)) == v && Digit(v) != PAD
  {
  }

  lemma DecodeGroup(w: int, x: int, y: int, z: int, rest: seq<byte>)
    requires 0 <= w < 64 && 0 <= x < 64 && 0 <= y < 64 && 0 <= z < 64 && Decode(rest).Some?
    ensures Decode([Digit(w), Digit(x), Digit(y), Digit(z)] + rest) == Some(Triple(w, x, y, z) + Decode(rest).value)
  {
    DigitValue(w);
    DigitValue(x);
    DigitValue(y);
    DigitValue(z);
    var t := [Digit(w), Digit(x), Digit(y), Digit(z)] + rest;
    assert t[2..][0] != PAD && t[3..][0] != PAD && t[4..] == rest;
  }

  lemma TripleOf(a: int, b: int, c: int)
    requires 0 <= a < 256 && 0 <= b < 256 && 0 <= c < 256
    ensures Triple(a / 4, a % 4 * 16 + b / 16, b % 16 * 4 + c / 64, c % 64) == [a as byte, b as byte, c as byte]
  {
  }

  lemma EncodeGroup(w: int, x: int, y: int, z: int, rest: seq<byte>)
    requires 0 <= w < 64 && 0 <= x < 64 && 0 <= y < 64 && 0 <= z < 64
    ensures Encode(Triple(w, x, y, z) + rest) == [Digit(w), Digit(x), Digit(y), Digit(z)] + Encode(rest)
  {
    var s := Triple(w, x, y, z) + rest;
    assert s[3..] == rest;
    QuadOf(w, x, y, z);
  }

  lemma Regroup(w: int, x: int, y: int, z: int)
    requires 0 <= w < 64 && 0 <= x < 64 && 0 <= y < 64 && 0 <= z < 64
    ensures var a, b, c := w * 4 + x / 16, x % 16 * 16 + y / 4, y % 4 * 64 + z;
      a / 4 == w && a % 4 * 16 + b / 16 == x && b % 16 * 4 + c / 64 == y && c % 64 == z
  {
  }

  lemma QuadOf(w: int, x: int, y: int, z: int)
    requires 0 <= w < 64 && 0 <= x < 64 && 0 <= y < 64 && 0 <= z < 64
    ensures Quad(w * 4 + x / 16, x % 16 * 16 + y / 4, y % 4 * 64 + z) == [Digit(w), Digit(x), Digit(y), Digit(z)]
  {
    Regroup(w, x, y, z);
  }

  lemma {:induction false} DecodeEncode(s: seq<byte>)
    ensures Decode(Encode(s)) == Some(s)
    decreases |s|
  {
    if |s| == 1 {
      DecodeSingle(s[0]);
      assert s == [s[0]];
    } else if |s| == 2 {
      DecodePair(s[0], s[1]);
      assert s == [s[0], s[1]];
    } else if |s| > 2 {
      DecodeEncode(s[3..]);
      DecodeThree(s[0], s[1], s[2], s[3..]);
      assert s == [s[0], s[1], s[2]] + s[3..];
    }
  }

  lemma EncodeThree(a: byte, b: byte, c: byte, rest: seq<byte>)
    ensures Encode([a, b, c] + rest) == Quad(a as int, b as int, c as int) + Encode(rest)
  {
    assert ([a, b, c] + rest)[3..] == rest;
  }

  lemma DecodeThree(a: byte, b: byte, c: byte, rest: seq<byte>)
    requires Decode(Encode(rest)) == Some(rest)
    ensures Decode(Encode([a, b, c] + rest)) == Some([a, b, c] + rest)
  {
    var x, y, z := a as int, b as int, c as int;
    EncodeThree(a, b, c, rest);
    DecodeGroup(x / 4, x % 4 * 16 + y / 16, y % 16 * 4 + z / 64, z % 64, Encode(rest));
    TripleOf(x, y, z);
  }

  lemma DecodeSingle(a: byte)
    ensures Decode(Encode([a])) == Some([a])
  {
    DigitValue(a as int / 4);
    DigitValue(a as int % 4 * 16);
  }

  lemma DecodePair(a: byte, b: byte)
    ensures Decode(Encode([a, b])) == Some([a, b])
  {
    var w, x, y := a as int / 4, a as int % 4 * 16 + b as int / 16, b as int % 16 * 4;
    PairBytes(a as int, b as int);
    assert Encode([a, b]) == [Digit(w), Digit(x), Digit(y), PAD];
    DecodeThreeDigits(w, x, y);
  }

  lemma PairBytes(a: int, b: int)
    requires 0 <= a < 256 && 0 <= b < 256
    ensures var w, x, y := a / 4, a % 4 * 16 + b / 16, b % 16 * 4;
      w * 4 + x / 16 == a && x % 16 * 16 + y / 4 == b && y % 4 == 0 && w < 64 && x < 64 && y < 64
  {
  }

  lemma DecodeThreeDigits(w: int, x: int, y: int)
    requires 0 <= w < 64 && 0 <= x < 64 && 0 <= y < 64 && y % 4 == 0
    ensures Decode([Digit(w), Digit(x), Digit(y), PAD]) ==
      Some([(w * 4 + x / 16) as byte, (x % 16 * 16 + y / 4) as byte])
  {
    DigitValue(w);
    DigitValue(x);
    DigitValue(y);
    var t := [Digit(w), Digit(x), Digit(y), PAD];
    assert t[2..][0] != PAD && t[3..] == [PAD];
  }

  /** Every byte string has one spelling only. */
  lemma {:induction false} EncodeDecode(t: seq<byte>)
    requires Decode(t).Some?
    ensures Encode(Decode(t).value) == t
    decreases |t|
  {
    if t != [] {
      var w, x := ValueOf(t[0]), ValueOf(t[1]);
      if t[2..] == [PAD, PAD] {
        Regroup(w, x, 0, 0);
        assert t == [t[0], t[1]] + t[2..];
      } else {
        var y := ValueOf(t[2]);
        if t[3..] == [PAD] {
          Regroup(w, x, y, 0);
          assert t == [t[0], t[1], t[2]] + t[3..];
        } else {
          EncodeDecode(t[4..]);
          EncodeGroup(w, x, y, ValueOf(t[3]), Decode(t[4..]).value);
          assert t == [t[0], t[1], t[2], t[3]] + t[4..];
        }
      }
    }
  }

  // ---- the encoding by its definition ----

  const CAPITALS := "ABCDEFGHIJKLMNOPQRSTUVWXYZ"
  const SMALL := "abcdefghijklmnopqrstuvwxyz"
  const ALPHABET := CAPITALS + SMALL + "0123456789" + "+/"

  lemma Capital(v: int)
    requires 0 <= v < 26
    ensures CAPITALS[v] as int == 0x41 + v
  {
    if v < 9 {
    } else if v < 18 {
    } else {
    }
  }

  lemma Small(v: int)
    requires 0 <= v < 26
    ensures SMALL[v] as int == 0x61 + v
  {
    if v < 9 {
    } else if v < 18 {
    } else {
    }
  }

  lemma DigitIsLetter(v: int)
    requires 0 <= v < 64
    ensures |ALPHABET| == 64 && Digit(v) as int == ALPHABET[v] as int
  {
    if v < 26 {
      Capital(v);
      assert ALPHABET[v] == CAPITALS[v];
    } else if v < 52 {
      Small(v - 26);
      assert ALPHABET[v] == SMALL[v - 26];
    } else {
      assert ALPHABET[v] == ("0123456789" + "+/")[v - 52];
    }
  }

  function Octet(s: seq<byte>, k: nat): nat { if k < |s| then s[k] as int else 0 }

  /** The 24 bits of the `g`th group of three bytes, missing bytes being zero. */
  function Group(s: seq<byte>, g: nat): nat {
    Octet(s, 3 * g) * 0x1_0000 + Octet(s, 3 * g + 1) * 0x100 + Octet(s, 3 * g + 2)
  }

  /** The `j`th six bits of a group. */
  function SixBits(n: nat, j: nat): (v: nat)
    ensures v < 64
  {
    if j == 0 then n / 0x4_0000 % 64 else if j == 1 then n / 0x1000 % 64 else if j == 2 then n / 64 % 64 else n % 64
  }

  /** A digit of the alphabet for six bits; in the last group, padding for those that no byte contributes to. */
  function Letter(s: seq<byte>, g: nat, j: nat): (c: int)
    requires 3 * g < |s| && j < 4
  {
    if j > |s| - 3 * g then PAD as int
    else
      DigitIsLetter(SixBits(Group(s, g), j));
      ALPHABET[SixBits(Group(s, g), j)] as int
  }

  /** The six bits of three bytes, given by their parts on both sides of each border. */
  lemma Borders(a: int, b: int, c: int)
    requires 0 <= a < 256 && 0 <= b < 256 && 0 <= c < 256
    ensures var n := a * 0x1_0000 + b * 0x100 + c;
      SixBits(n, 0) == a / 4 && SixBits(n, 1) == a % 4 * 16 + b / 16
      && SixBits(n, 2) == b % 16 * 4 + c / 64 && SixBits(n, 3) == c % 64
  {
    var n := a * 0x1_0000 + b * 0x100 + c;
    var w, x, y, z := a / 4, a % 4 * 16 + b / 16, b % 16 * 4 + c / 64, c % 64;
    assert n == w * 0x4_0000 + x * 0x1000 + y * 64 + z;
    Places(w, x, y, z);
  }

  lemma Places(w: int, x: int, y: int, z: int)
    requires 0 <= w < 64 && 0 <= x < 64 && 0 <= y < 64 && 0 <= z < 64
    ensures var n := w * 0x4_0000 + x * 0x1000 + y * 64 + z;
      SixBits(n, 0) == w && SixBits(n, 1) == x && SixBits(n, 2) == y && SixBits(n, 3) == z
  {
    var n := w * 0x4_0000 + x * 0x1000 + y * 64 + z;
    assert n / 0x4_0000 == w;
    assert n / 0x1000 == w * 64 + x;
    assert n / 64 == w * 0x1000 + x * 64 + y;
  }

  lemma FirstGroup(s: seq<byte>, j: nat)
    requires s != [] && j < 4
    ensures |Encode(s)| >= 4 && Encode(s)[j] as int == Letter(s, 0, j)
  {
    Borders(Octet(s, 0), Octet(s, 1), Octet(s, 2));
    DigitIsLetter(SixBits(Group(s, 0), j));
    FirstDigits(s);
  }

  /** What the first three bytes are encoded as. */
  lemma FirstDigits(s: seq<byte>)
    requires s != []
    ensures var a, b, c := Octet(s, 0), Octet(s, 1), Octet(s, 2);
      && |Encode(s)| >= 4 && Encode(s)[0] == Digit(a / 4) && Encode(s)[1] == Digit(a % 4 * 16 + b / 16)
      && Encode(s)[2] == (if |s| < 2 then PAD else Digit(b % 16 * 4 + c / 64))
      && Encode(s)[3] == (if |s| < 3 then PAD else Digit(c % 64))
  {
  }

  lemma {:induction false} EncodedLength(s: seq<byte>)
    ensures |Encode(s)| == (|s| + 2) / 3 * 4
    decreases |s|
  {
    if |s| >= 3 {
      EncodedFurther(s);
      EncodedLength(s[3..]);
    }
  }

  /** Every group of three bytes is written as its four times six bits, most significant first. */
  lemma {:induction false} EncodesGroups(s: seq<byte>, g: nat, j: nat)
    requires 3 * g < |s| && j < 4
    ensures 4 * g + j < |Encode(s)| && Encode(s)[4 * g + j] as int == Letter(s, g, j)
    decreases g
  {
    if g == 0 {
      FirstGroup(s, j);
    } else {
      EncodesGroups(s[3..], g - 1, j);
      EncodedFurther(s);
      LetterFurther(s, g, j);
      assert Encode(s)[4 * g + j] == Encode(s[3..])[4 * (g - 1) + j];
    }
  }

  lemma EncodedFurther(s: seq<byte>)
    requires |s| >= 3
    ensures |Encode(s)| == 4 + |Encode(s[3..])|
    ensures forall i :: 4 <= i < |Encode(s)| ==> Encode(s)[i] == Encode(s[3..])[i - 4]
  {
    assert Encode(s) == Quad(s[0] as int, s[1] as int, s[2] as int) + Encode(s[3..]);
  }

  lemma LetterFurther(s: seq<byte>, g: nat, j: nat)
    requires g > 0 && 3 * g < |s| && j < 4
    ensures Letter(s, g, j) == Letter(s[3..], g - 1, j)
  {
    assert Group(s[3..], g - 1) == Group(s, g);
  }
}
