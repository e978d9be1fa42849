/**
 Strings as the Go program sees them: sequences of bytes, decoded into runes by a `range` loop.
 Search and username handling index bytes but iterate runes, and the difference matters to both.
 */
module Utf8 {

  type byte = b: int | 0 <= b < 256

  type Bytes = seq<byte>

  const RUNE_ERROR := 0xFFFD

  predicate IsAscii(s: Bytes)
  {
    forall k :: 0 <= k < |s| ==> s[k] < 0x80
  }

  predicate Continuation(b: byte)
  {
    0x80 <= b <= 0xBF
  }

  /** The six bits a continuation byte carries. */
  function Payload(b: byte): int
  {
    b as int - 0x80
  }

  datatype Rune = Rune(code: int, width: nat)

  /** Well-formed three- and four-byte leads restrict their second byte, which rules out overlong forms and surrogates. */
  predicate SecondByteOk(lead: byte, second: byte)
  {
    if lead == 0xE0 then 0xA0 <= second <= 0xBF
    else if lead == 0xED then 0x80 <= second <= 0x9F
    else if lead == 0xF0 then 0x90 <= second <= 0xBF
    else if lead == 0xF4 then 0x80 <= second <= 0x8F
    else Continuation(second)
  }

  /** One step of a `range` loop over a string: the rune at byte `i` and the number of bytes it takes. */
  function DecodeRune(s: Bytes, i: nat): (r: Rune)
    requires i < |s|
    ensures 1 <= r.width <= 4 && i + r.width <= |s|
    ensures s[i] < 0x80 <==> r.code < 0x80
    ensures s[i] < 0x80 ==> r == Rune(s[i], 1)
    // A code point that fits in one byte but is not ASCII always takes two bytes, both of them non-ASCII.
    ensures 0x80 <= r.code <= 0xFF ==> r.width == 2 && s[i + 1] >= 0x80
  {
    var b: int := s[i];
    if b < 0x80 then Rune(b, 1)
    else if 0xC2 <= b <= 0xDF && i + 1 < |s| && Continuation(s[i + 1]) then
      Rune((b - 0xC0) * 0x40 + Payload(s[i + 1]), 2)
    else if 0xE0 <= b <= 0xEF && i + 2 < |s| && SecondByteOk(s[i], s[i + 1]) && Continuation(s[i + 2]) then
      Rune((b - 0xE0) * 0x1000 + Payload(s[i + 1]) * 0x40 + Payload(s[i + 2]), 3)
    else if 0xF0 <= b <= 0xF4 && i + 3 < |s| && SecondByteOk(s[i], s[i + 1])
            && Continuation(s[i + 2]) && Continuation(s[i + 3]) then
      Rune((b - 0xF0) * 0x40000 + Payload(s[i + 1]) * 0x1000 + Payload(s[i + 2]) * 0x40 + Payload(s[i + 3]), 4)
    else Rune(RUNE_ERROR, 1)
  }
}
