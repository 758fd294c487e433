/** Bytes and Go strings.

    A Go `string` is an immutable sequence of bytes.  Where the model converts between
    strings and byte slices (`string(raw)`, `[]byte(s)`), a Go string is a Dafny string
    whose every character has a code below 256, one character per byte. */
module ByteStrings {

  type byte = x: int | 0 <= x < 256

  type Bytes = seq<byte>

  predicate IsByteString(s: string) {
    forall i | 0 <= i < |s| :: s[i] as int < 256
  }

  /** A Go string: one character per byte. */
  type GoString = s: string | IsByteString(s)

  /** Go's `string(b)`. */
  function StringOf(b: Bytes): (s: GoString)
    ensures |s| == |b|
    ensures forall i | 0 <= i < |b| :: s[i] as int == b[i]
  {
    seq(|b|, i requires 0 <= i < |b| => b[i] as char)
  }

  /** Go's `[]byte(s)`. */
  function BytesOf(s: GoString): (b: Bytes)
    ensures |b| == |s|
    ensures forall i | 0 <= i < |s| :: b[i] == s[i] as int
  {
    seq(|s|, i requires 0 <= i < |s| => s[i] as int)
  }

  /** The two conversions are mutually inverse. */
  lemma BytesOfStringOf(b: Bytes)
    ensures BytesOf(StringOf(b)) == b
  {
  }

  lemma StringOfBytesOf(s: GoString)
    ensures StringOf(BytesOf(s)) == s
  {
  }

  /** A UTF-8 continuation byte, 10xxxxxx. */
  predicate IsContinuation(x: byte) {
    0x80 <= x <= 0xBF
  }

  /** Well-formed UTF-8, byte by byte as in the table of section 4 of RFC 3629: no
      overlong forms, no surrogates, nothing above U+10FFFF. */
  predicate ValidUtf8(b: Bytes)
    decreases |b|
  {
    if |b| == 0 then true
    else if b[0] <= 0x7F then ValidUtf8(b[1..])
    else if 0xC2 <= b[0] <= 0xDF then
      |b| >= 2 && IsContinuation(b[1]) && ValidUtf8(b[2..])
    else if 0xE0 <= b[0] <= 0xEF then
      && |b| >= 3
      && (if b[0] == 0xE0 then 0xA0 <= b[1] <= 0xBF
          else if b[0] == 0xED then 0x80 <= b[1] <= 0x9F
          else IsContinuation(b[1]))
      && IsContinuation(b[2]) && ValidUtf8(b[3..])
    else if 0xF0 <= b[0] <= 0xF4 then
      && |b| >= 4
      && (if b[0] == 0xF0 then 0x90 <= b[1] <= 0xBF
          else if b[0] == 0xF4 then 0x80 <= b[1] <= 0x8F
          else IsContinuation(b[1]))
      && IsContinuation(b[2]) && IsContinuation(b[3]) && ValidUtf8(b[4..])
    else false
  }

  /** Plain ASCII is valid UTF-8. */
  lemma {:induction false} AsciiIsUtf8(b: Bytes)
    requires forall i | 0 <= i < |b| :: b[i] <= 0x7F
    ensures ValidUtf8(b)
    decreases |b|
  {
    if |b| > 0 {
      AsciiIsUtf8(b[1..]);
    }
  }
}
