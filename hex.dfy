/** Go's `hex.EncodeToString`: two lowercase hexadecimal digits per byte. */
module Hex {
  import opened ByteStrings

  const Digits: string := "0123456789abcdef"

  predicate IsLowerHex(c: char) {
    ('0' <= c <= '9') || ('a' <= c <= 'f')
  }

  function Encode(b: Bytes): (s: string)
    ensures |s| == 2 * |b|
    ensures forall i | 0 <= i < |s| :: IsLowerHex(s[i])
  {
    if b == [] then ""
    else [Digits[b[0] / 16], Digits[b[0] % 16]] + Encode(b[1..])
  }

  /** Byte `i` is spelt by characters `2i` (high nibble) and `2i+1` (low nibble). */
  lemma {:induction false} EncodeAt(b: Bytes, i: nat)
    requires i < |b|
    ensures Encode(b)[2 * i] == Digits[b[i] / 16]
    ensures Encode(b)[2 * i + 1] == Digits[b[i] % 16]
    decreases i
  {
    var rest := Encode(b[1..]);
    assert Encode(b) == [Digits[b[0] / 16], Digits[b[0] % 16]] + rest;
    if i > 0 {
      EncodeAt(b[1..], i - 1);
      assert Encode(b)[2 * i] == rest[2 * (i - 1)];
      assert Encode(b)[2 * i + 1] == rest[2 * (i - 1) + 1];
    }
  }
}
