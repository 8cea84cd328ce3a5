/**
 HTTP Basic client credentials as RFC 6749, section 2.3.1, prescribes them: both parts are
 form-urlencoded, joined by a colon and base64-encoded. Text is its UTF-8 bytes.
 */
module BasicCredentials {
  import opened Wrappers
  import opened Bytes
  import Base64

  const SPACE: byte := 0x20
  const PLUS: byte := 0x2B
  const PERCENT: byte := 0x25
  const COLON: byte := 0x3A

  /** "Basic" in lower case. */
  const SCHEME: seq<byte> := [0x62, 0x61, 0x73, 0x69, 0x63]

  /** "Basic ". */
  const BASIC: seq<byte> := [0x42, 0x61, 0x73, 0x69, 0x63, SPACE]

  function Hex(v: int): byte
    requires 0 <= v < 16
  {
    if v < 10 then (0x30 + v) as byte else (0x41 + v - 10) as byte
  }

  /** A hexadecimal digit of either case. */
  function HexValue(b: byte): (v: Option<int>)
    ensures v.Some? ==> 0 <= v.value < 16
  {
    if DecimalDigit(b) then Some(b as int - 0x30)
    else if 0x41 <= b <= 0x46 then Some(b as int - 0x41 + 10)
    else if 0x61 <= b <= 0x66 then Some(b as int - 0x61 + 10)
    else None
  }

  /** The bytes form-urlencoding leaves as they are: letters, digits and `*-._`. */
  predicate Plain(b: byte) { Alphanumeric(b) || b in {0x2A, 0x2D, 0x2E, 0x5F} }

  function EncodedByte(b: byte): seq<byte> {
    if Plain(b) then [b]
    else if b == SPACE then [PLUS]
    else [PERCENT, Hex(b as int / 16), Hex(b as int % 16)]
  }

  function UrlEncoded(text: seq<byte>): seq<byte> {
    if text == [] then [] else EncodedByte(text[0]) + UrlEncoded(text[1..])
  }

  /** What the input stands for, `None` if a `%` does not introduce two hex digits. */
  function UrlDecoded(input: seq<byte>): Option<seq<byte>>
    decreases |input|
  {
    if input == [] then Some([])
    else if input[0] == PERCENT then
      if |input| < 3 || HexValue(input[1]).None? || HexValue(input[2]).None? then None
      else After([(HexValue(input[1]).value * 16 + HexValue(input[2]).value) as byte], UrlDecoded(input[3..]))
    else After([if input[0] == PLUS then SPACE else input[0]], UrlDecoded(input[1..]))
  }

  function After(done: seq<byte>, rest: Option<seq<byte>>): Option<seq<byte>> {
    if rest.Some? then Some(done + rest.value) else None
  }

  function Text(bytes: Option<seq<byte>>): Option<seq<byte>> {
    if bytes.Some? && Utf8(bytes.value) then bytes else None
  }

  lemma AfterAfter(a: seq<byte>, b: seq<byte>, rest: Option<seq<byte>>)
    ensures After(a, After(b, rest)) == After(a + b, rest)
  {
    if rest.Some? { assert a + (b + rest.value) == (a + b) + rest.value; }
  }

  lemma AfterNothing(rest: Option<seq<byte>>)
    ensures After([], rest) == rest
  {
    if rest.Some? { assert [] + rest.value == rest.value; }
  }

  // ---- form-urlencoding without recursion on the input ----

  /** A hexadecimal digit of either case that stands for `v`. */
  predicate HexSpells(digit: byte, v: int)
    requires 0 <= v < 16
  {
    digit as int == "0123456789ABCDEF"[v] as int || digit as int == "0123456789abcdef"[v] as int
  }

  /** What may be written for one byte: itself, unless it is `+` or `%`; `+` for a space; or `%` and two digits. */
  predicate Spelled(piece: seq<byte>, b: byte) {
    || (piece == [b] && b != 0x2B && b != 0x25)
    || (piece == [0x2B] && b == 0x20)
    || (|piece| == 3 && piece[0] == 0x25 && HexSpells(piece[1], b as int / 16) && HexSpells(piece[2], b as int % 16))
  }

  function Joined(pieces: seq<seq<byte>>): seq<byte> { if pieces == [] then [] else pieces[0] + Joined(pieces[1..]) }

  /** The input cut into one piece for every byte of the text. */
  predicate Cut(input: seq<byte>, text: seq<byte>, pieces: seq<seq<byte>>) {
    |pieces| == |text| && Joined(pieces) == input && forall i :: 0 <= i < |text| ==> Spelled(pieces[i], text[i])
  }

  lemma HexValueMeans(digit: byte, v: int)
    requires 0 <= v < 16
    ensures HexValue(digit) == Some(v) <==> HexSpells(digit, v)
  {
    if v < 4 {
    } else if v < 8 {
    } else if v < 12 {
    } else {
    }
  }

  /** The input stands for `text` exactly if it can be cut into such pieces. */
  lemma DecodedExactlyWhen(input: seq<byte>, text: seq<byte>)
    ensures UrlDecoded(input) == Some(text) <==> exists pieces :: Cut(input, text, pieces)
  {
    if UrlDecoded(input) == Some(text) { var pieces := PiecesOf(input, text); }
    forall pieces | Cut(input, text, pieces) ensures UrlDecoded(input) == Some(text) {
      PiecesDecode(input, text, pieces);
    }
  }

  /** The length of what stands for the first byte. */
  function Width(input: seq<byte>): nat
    requires input != []
  {
    if input[0] == PERCENT then 3 else 1
  }

  lemma FirstPiece(input: seq<byte>, text: seq<byte>)
    requires input != [] && UrlDecoded(input) == Some(text)
    ensures Width(input) <= |input| && text != [] && Spelled(input[..Width(input)], text[0])
    ensures UrlDecoded(input[Width(input)..]) == Some(text[1..])
  {
    if input[0] == PERCENT {
      EscapedPiece(input, text);
    } else {
      assert text == [if input[0] == PLUS then SPACE else input[0]] + UrlDecoded(input[1..]).value;
      assert input[..1] == [input[0]];
    }
  }

  lemma EscapedPiece(input: seq<byte>, text: seq<byte>)
    requires input != [] && input[0] == PERCENT && UrlDecoded(input) == Some(text)
    ensures 3 <= |input| && text != [] && Spelled(input[..3], text[0]) && UrlDecoded(input[3..]) == Some(text[1..])
  {
    var high, low := HexValue(input[1]).value, HexValue(input[2]).value;
    var b := (high * 16 + low) as byte;
    assert UrlDecoded(input) == After([b], UrlDecoded(input[3..]));
    assert text == [b] + UrlDecoded(input[3..]).value;
    EscapeSpells(input[1], input[2], high, low);
  }

  lemma EscapeSpells(first: byte, second: byte, high: int, low: int)
    requires HexValue(first) == Some(high) && HexValue(second) == Some(low)
    ensures Spelled([PERCENT, first, second], (high * 16 + low) as byte)
  {
    HexValueMeans(first, high);
    HexValueMeans(second, low);
    var b := high * 16 + low;
    assert b / 16 == high && b % 16 == low;
  }

  lemma {:induction false} PiecesOf(input: seq<byte>, text: seq<byte>) returns (pieces: seq<seq<byte>>)
    requires UrlDecoded(input) == Some(text)
    ensures Cut(input, text, pieces)
    decreases |input|
  {
    pieces := [];
    if input != [] {
      FirstPiece(input, text);
      var n := Width(input);
      var rest := PiecesOf(input[n..], text[1..]);
      pieces := [input[..n]] + rest;
      assert pieces[1..] == rest && input[..n] + input[n..] == input;
    }
  }

  lemma PieceDecodes(piece: seq<byte>, b: byte, rest: seq<byte>)
    requires Spelled(piece, b)
    ensures UrlDecoded(piece + rest) == After([b], UrlDecoded(rest))
  {
    assert (piece + rest)[|piece|..] == rest;
    if |piece| == 3 {
      HexValueMeans(piece[1], b as int / 16);
      HexValueMeans(piece[2], b as int % 16);
    }
  }

  lemma {:induction false} PiecesDecode(input: seq<byte>, text: seq<byte>, pieces: seq<seq<byte>>)
    requires Cut(input, text, pieces)
    ensures UrlDecoded(input) == Some(text)
    decreases |text|
  {
    if text != [] {
      PiecesDecode(Joined(pieces[1..]), text[1..], pieces[1..]);
      PieceDecodes(pieces[0], text[0], Joined(pieces[1..]));
      assert [text[0]] + text[1..] == text;
    }
  }

  /** Decodes in one pass, reading up to two more bytes after a `%`. */
  method FormUrldecode(input: seq<byte>) returns (text: Option<seq<byte>>)
    ensures text == Text(UrlDecoded(input))
  {
    var output: seq<byte> := [];
    var next := 0;
    AfterNothing(UrlDecoded(input));
    assert input[0..] == input;
    while next < |input|
      invariant next <= |input|
      invariant UrlDecoded(input) == After(output, UrlDecoded(input[next..]))
    {
      var rest := input[next..];
      var byte := input[next];
      next := next + 1;
      var pushed;
      if byte == PLUS {
        pushed := SPACE;
      } else if byte == PERCENT {
        if next >= |input| {
          return None;
        }
        var high := HexValue(input[next]);
        next := next + 1;
        if high.None? || next >= |input| {
          return None;
        }
        var low := HexValue(input[next]);
        next := next + 1;
        if low.None? {
          return None;
        }
        pushed := (high.value * 16 + low.value) as byte;
      } else {
        pushed := byte;
      }
      assert input[next..] == rest[if byte == PERCENT then 3 else 1..];
      AfterAfter(output, [pushed], UrlDecoded(input[next..]));
      output := output + [pushed];
    }
    assert input[next..] == [] && output + [] == output;
    return if Utf8(output) then Some(output) else None;
  }

  lemma HexPair(b: byte)
    ensures HexValue(Hex(b as int / 16)) == Some(b as int / 16) && HexValue(Hex(b as int % 16)) == Some(b as int % 16)
  {
  }

  /** Decoding gives back what was encoded, and the encoding holds no colon. */
  lemma {:induction false} DecodeUrlEncoded(text: seq<byte>)
    ensures UrlDecoded(UrlEncoded(text)) == Some(text)
    ensures COLON !in UrlEncoded(text)
    decreases |text|
  {
    if text != [] {
      var b := text[0];
      DecodeUrlEncoded(text[1..]);
      HexPair(b);
      var encoded := UrlEncoded(text);
      assert encoded[|EncodedByte(b)|..] == UrlEncoded(text[1..]);
      assert [b] + text[1..] == text;
    }
  }

  function ToLower(b: byte): byte { if Upper(b) then b + 0x20 else b }

  /** The value after the scheme, if that is Basic in any case. */
  function BasicScheme(value: seq<byte>): Option<seq<byte>> {
    if |value| >= 5 && (forall i :: 0 <= i < 5 ==> ToLower(value[i]) == SCHEME[i])
       && (|value| > 5 ==> value[5] == SPACE)
    then Some(value[5..]) else None
  }

  predicate Whitespace(b: byte) { b in {0x20, 0x09, 0x0A, 0x0C, 0x0D} }

  function TrimStart(s: seq<byte>): seq<byte> {
    if s != [] && Whitespace(s[0]) then TrimStart(s[1..]) else s
  }

  /** What is trimmed away is white space. */
  lemma {:induction false} Blanks(s: seq<byte>) returns (n: nat)
    ensures n <= |s| && TrimStart(s) == s[n..] && forall i :: 0 <= i < n ==> Whitespace(s[i])
    decreases |s|
  {
    n := 0;
    if s != [] && Whitespace(s[0]) {
      n := Blanks(s[1..]);
      assert forall i :: 0 < i < n + 1 ==> s[i] == s[1..][i - 1];
      n := n + 1;
    }
  }

  /** The position of the first colon. */
  function Colon(s: seq<byte>): (n: Option<nat>)
    ensures n.Some? ==> n.value < |s| && s[n.value] == COLON && COLON !in s[..n.value]
    ensures n.None? ==> COLON !in s
  {
    if s == [] then None
    else if s[0] == COLON then Some(0)
    else
      var n := Colon(s[1..]);
      if n.Some? then
        assert s[..n.value + 1] == [s[0]] + s[1..][..n.value];
        Some(n.value + 1)
      else None
  }

  datatype Credentials = Credentials(id: seq<byte>, secret: seq<byte>)

  function BasicAuthorization(id: seq<byte>, secret: seq<byte>): seq<byte> {
    BASIC + Base64.Encode(UrlEncoded(id) + [COLON] + UrlEncoded(secret))
  }

  /** Reads the decoded credentials at their first colon. */
  function ParsePlain(plain: seq<byte>): Option<Credentials> {
    var colon := Colon(plain);
    if colon.None? then None
    else
      var id := Text(UrlDecoded(plain[..colon.value]));
      var secret := Text(UrlDecoded(plain[colon.value + 1..]));
      if id.None? || secret.None? then None else Some(Credentials(id.value, secret.value))
  }

  function ParseBasicCredentials(value: seq<byte>): Option<Credentials> {
    var rest := BasicScheme(value);
    if rest.None? || rest.value == [] then None
    else
      var plain := Base64.Decode(TrimStart(rest.value[1..]));
      if plain.None? then None else ParsePlain(plain.value)
  }

  lemma FirstColon(head: seq<byte>, tail: seq<byte>)
    requires COLON !in head
    ensures Colon(head + [COLON] + tail) == Some(|head|)
  {
    var s := head + [COLON] + tail;
    assert s[|head|] == COLON;
    assert forall i :: 0 <= i < |head| ==> s[i] == head[i];
  }

  /** Two form-urlencoded texts around the first colon. */
  predicate PlainSpelling(id: seq<byte>, secret: seq<byte>, c: Credentials) {
    COLON !in id && Text(UrlDecoded(id)) == Some(c.id) && Text(UrlDecoded(secret)) == Some(c.secret)
  }

  lemma PlainIsParsed(id: seq<byte>, secret: seq<byte>, c: Credentials)
    requires PlainSpelling(id, secret, c)
    ensures ParsePlain(id + [COLON] + secret) == Some(c)
  {
    var plain := id + [COLON] + secret;
    FirstColon(id, secret);
    assert plain[..|id|] == id && plain[|id| + 1..] == secret;
  }

  lemma ParsedPlain(plain: seq<byte>, c: Credentials) returns (id: seq<byte>, secret: seq<byte>)
    requires ParsePlain(plain) == Some(c)
    ensures plain == id + [COLON] + secret && PlainSpelling(id, secret, c)
  {
    var colon := Colon(plain).value;
    id, secret := plain[..colon], plain[colon + 1..];
  }

  /** A header that carries the credentials `c` in some permitted spelling: "Basic" in any case, and white space. */
  ghost predicate Spells(value: seq<byte>, c: Credentials, blanks: nat, id: seq<byte>, secret: seq<byte>) {
    && |value| >= 6 + blanks
    && value[0] in {0x42, 0x62} && value[1] in {0x41, 0x61} && value[2] in {0x53, 0x73} && value[3] in {0x49, 0x69}
    && value[4] in {0x43, 0x63} && value[5] == 0x20
    && (forall i :: 6 <= i < 6 + blanks ==> value[i] in {0x20, 0x09, 0x0A, 0x0C, 0x0D})
    && value[6 + blanks..] == Base64.Encode(id + [COLON] + secret)
    && PlainSpelling(id, secret, c)
  }

  lemma {:induction false} TrimBlanks(s: seq<byte>, n: nat)
    requires n <= |s| && (forall i :: 0 <= i < n ==> Whitespace(s[i])) && (n < |s| ==> !Whitespace(s[n]))
    ensures TrimStart(s) == s[n..]
    decreases n
  {
    if n > 0 { TrimBlanks(s[1..], n - 1); }
  }

  /** No base64 text starts with white space. */
  lemma EncodedStart(s: seq<byte>)
    ensures s != [] ==> |Base64.Encode(s)| > 0 && !Whitespace(Base64.Encode(s)[0])
  {
  }

  lemma SpellingIsParsed(value: seq<byte>, c: Credentials, blanks: nat, id: seq<byte>, secret: seq<byte>)
    requires Spells(value, c, blanks, id, secret)
    ensures ParseBasicCredentials(value) == Some(c)
  {
    var plain := id + [COLON] + secret;
    var rest := value[5..][1..];
    assert rest == value[6..] && rest[blanks..] == value[6 + blanks..];
    EncodedStart(plain);
    if blanks < |rest| { assert rest[blanks] == rest[blanks..][0]; }
    assert forall i :: 0 <= i < blanks ==> rest[i] == value[6 + i];
    TrimBlanks(rest, blanks);
    Base64.DecodeEncode(plain);
    PlainIsParsed(id, secret, c);
  }

  lemma ParsedIsSpelling(value: seq<byte>, c: Credentials) returns (blanks: nat, id: seq<byte>, secret: seq<byte>)
    requires ParseBasicCredentials(value) == Some(c)
    ensures Spells(value, c, blanks, id, secret)
  {
    var rest := value[5..][1..];
    assert rest == value[6..];
    blanks := Blanks(rest);
    assert forall i :: 6 <= i < 6 + blanks ==> value[i] == rest[i - 6];
    Base64.EncodeDecode(TrimStart(rest));
    id, secret := ParsedPlain(Base64.Decode(TrimStart(rest)).value, c);
    assert rest[blanks..] == value[6 + blanks..];
  }

  /**
   The relay reads `c` from exactly the headers of that form: the scheme in any case, a space and
   more white space, the one base64 spelling of two form-urlencoded texts around the first colon.
   */
  lemma ParsesExactlySpellings(value: seq<byte>, c: Credentials)
    ensures ParseBasicCredentials(value) == Some(c) <==>
      exists blanks, id, secret :: Spells(value, c, blanks, id, secret)
  {
    if ParseBasicCredentials(value) == Some(c) { var _, _, _ := ParsedIsSpelling(value, c); }
    forall blanks, id, secret | Spells(value, c, blanks, id, secret) ensures ParseBasicCredentials(value) == Some(c) {
      SpellingIsParsed(value, c, blanks, id, secret);
    }
  }

  /** Whatever id and secret a client sends as RFC 6749 prescribes, the relay reads those. */
  lemma CredentialRoundTrip(id: seq<byte>, secret: seq<byte>)
    requires Utf8(id) && Utf8(secret)
    ensures ParseBasicCredentials(BasicAuthorization(id, secret)) == Some(Credentials(id, secret))
  {
    var value := BasicAuthorization(id, secret);
    DecodeUrlEncoded(id);
    DecodeUrlEncoded(secret);
    HeaderStart(Base64.Encode(UrlEncoded(id) + [COLON] + UrlEncoded(secret)));
    SpellingIsParsed(value, Credentials(id, secret), 0, UrlEncoded(id), UrlEncoded(secret));
  }

  lemma HeaderStart(token: seq<byte>)
    ensures var value := BASIC + token; BasicScheme(value).Some? && |value| >= 6 && value[6..] == token
  {
  }
}
