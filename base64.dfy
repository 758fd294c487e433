/** The padded base64url encoding of section 5 of RFC 4648, as Go's
    `base64.URLEncoding` implements it: `EncodeToString` and `DecodeString`.

    Decoding follows Go's non-strict decoder: carriage returns and line feeds are
    skipped, the input must consist of whole 4-character groups, padding may only end
    the last group, and unused low bits of the last digit are ignored. */
module Base64Url {
  import opened Wrappers
  import opened ByteStrings

  const Pad: char := '='

  predicate InAlphabet(c: char) {
    ('A' <= c <= 'Z') || ('a' <= c <= 'z') || ('0' <= c <= '9') || c == '-' || c == '_'
  }

  /** Text made only of alphabet characters and padding. */
  predicate AlphabetOrPad(s: string) {
    forall i | 0 <= i < |s| :: InAlphabet(s[i]) || s[i] == Pad
  }

  lemma AlphabetOrPadAppend(s: string, t: string)
    requires AlphabetOrPad(s) && AlphabetOrPad(t)
    ensures AlphabetOrPad(s + t)
  {
    forall i | 0 <= i < |s + t|
      ensures InAlphabet((s + t)[i]) || (s + t)[i] == Pad
    {
      if i >= |s| {
        assert (s + t)[i] == t[i - |s|];
      }
    }
  }

  /** The character that stands for the 6-bit value `d`. */
  function Symbol(d: int): (c: char)
    requires 0 <= d < 64
    ensures InAlphabet(c)
  {
    if d < 26 then ('A' as int + d) as char
    else if d < 52 then ('a' as int + d - 26) as char
    else if d < 62 then ('0' as int + d - 52) as char
    else if d == 62 then '-'
    else '_'
  }

  /** The 6-bit value of an alphabet character; None for any other character. */
  function Digit(c: char): (r: Option<int>)
    ensures r.Some? <==> InAlphabet(c)
    ensures r.Some? ==> 0 <= r.value < 64 && Symbol(r.value) == c
  {
    if 'A' <= c <= 'Z' then Some(c as int - 'A' as int)
    else if 'a' <= c <= 'z' then Some(c as int - 'a' as int + 26)
    else if '0' <= c <= '9' then Some(c as int - '0' as int + 52)
    else if c == '-' then Some(62)
    else if c == '_' then Some(63)
    else None
  }

  lemma DigitOfSymbol(d: int)
    requires 0 <= d < 64
    ensures Digit(Symbol(d)) == Some(d)
  {
  }

  function EncodeGroup1(b0: byte): string {
    [Symbol(b0 / 4), Symbol((b0 % 4) * 16), Pad, Pad]
  }

  function EncodeGroup2(b0: byte, b1: byte): string {
    [Symbol(b0 / 4), Symbol((b0 % 4) * 16 + b1 / 16), Symbol((b1 % 16) * 4), Pad]
  }

  function EncodeGroup3(b0: byte, b1: byte, b2: byte): string {
    [Symbol(b0 / 4), Symbol((b0 % 4) * 16 + b1 / 16), Symbol((b1 % 16) * 4 + b2 / 64), Symbol(b2 % 64)]
  }

  /** `base64.URLEncoding.EncodeToString`: every 3 bytes become 4 characters; a final
      group of 1 or 2 bytes is padded with '='.  The text is 4·⌈n/3⌉ characters of the
      alphabet and padding. */
  function Encode(b: Bytes): (s: string)
    ensures |s| == 4 * ((|b| + 2) / 3)
    ensures AlphabetOrPad(s)
    decreases |b|
  {
    if |b| == 0 then ""
    else if |b| == 1 then EncodeGroup1(b[0])
    else if |b| == 2 then EncodeGroup2(b[0], b[1])
    else
      var g, rest := EncodeGroup3(b[0], b[1], b[2]), Encode(b[3..]);
      AlphabetOrPadAppend(g, rest);
      g + rest
  }

  function StripNewlines(s: string): string {
    if s == [] then []
    else (if s[0] == '\r' || s[0] == '\n' then [] else [s[0]]) + StripNewlines(s[1..])
  }

  function DecodeGroup3(d0: int, d1: int, d2: int, d3: int): Bytes
    requires 0 <= d0 < 64 && 0 <= d1 < 64 && 0 <= d2 < 64 && 0 <= d3 < 64
  {
    [d0 * 4 + d1 / 16, (d1 % 16) * 16 + d2 / 4, (d2 % 4) * 64 + d3]
  }

  /** Decodes whole 4-character groups; None when the input is corrupt. */
  function DecodeGroups(s: string): Option<Bytes>
    decreases |s|
  {
    if |s| == 0 then Some([])
    else if |s| < 4 then None
    else
      var d0, d1, d2, d3 := Digit(s[0]), Digit(s[1]), Digit(s[2]), Digit(s[3]);
      if d0.None? || d1.None? then None
      else if d2.Some? && d3.Some? then
        match DecodeGroups(s[4..])
        case None => None
        case Some(rest) => Some(DecodeGroup3(d0.value, d1.value, d2.value, d3.value) + rest)
      else if |s| == 4 && s[2] == Pad && s[3] == Pad then
        Some([d0.value * 4 + d1.value / 16])
      else if |s| == 4 && d2.Some? && s[3] == Pad then
        Some([d0.value * 4 + d1.value / 16, (d1.value % 16) * 16 + d2.value / 4])
      else None
  }

  /** `base64.URLEncoding.DecodeString`; None is Go's `CorruptInputError`.  Only text
      that, once line breaks are skipped, is whole 4-character groups of alphabet
      characters and padding decodes. */
  function Decode(s: string): (r: Option<Bytes>)
    ensures r.Some? ==> |StripNewlines(s)| % 4 == 0 && AlphabetOrPad(StripNewlines(s))
  {
    DecodableIsWellFormed(StripNewlines(s));
    DecodeGroups(StripNewlines(s))
  }

  /** Padding only ever ends the encoding: no character before the last group is '='. */
  lemma {:induction false} PaddingOnlyAtEnd(b: Bytes)
    ensures forall i | 0 <= i < |Encode(b)| - 4 :: InAlphabet(Encode(b)[i])
    decreases |b|
  {
    if |b| >= 3 {
      PaddingOnlyAtEnd(b[3..]);
      var g, rest := EncodeGroup3(b[0], b[1], b[2]), Encode(b[3..]);
      assert Encode(b) == g + rest;
      forall i | 0 <= i < |Encode(b)| - 4
        ensures InAlphabet(Encode(b)[i])
      {
        if i >= 4 {
          assert Encode(b)[i] == rest[i - 4];
        }
      }
    }
  }

  lemma {:induction false} StripNewlinesUnchanged(s: string)
    requires forall i | 0 <= i < |s| :: s[i] != '\r' && s[i] != '\n'
    ensures StripNewlines(s) == s
  {
    if s != [] {
      StripNewlinesUnchanged(s[1..]);
    }
  }

  lemma DecodeEncodeGroup3(b0: byte, b1: byte, b2: byte)
    ensures var g := EncodeGroup3(b0, b1, b2);
            Digit(g[0]).Some? && Digit(g[1]).Some? && Digit(g[2]).Some? && Digit(g[3]).Some? &&
            DecodeGroup3(Digit(g[0]).value, Digit(g[1]).value, Digit(g[2]).value, Digit(g[3]).value) == [b0, b1, b2]
  {
    var d0, d1, d2, d3 := b0 / 4, (b0 % 4) * 16 + b1 / 16, (b1 % 16) * 4 + b2 / 64, b2 % 64;
    DigitOfSymbol(d0);
    DigitOfSymbol(d1);
    DigitOfSymbol(d2);
    DigitOfSymbol(d3);
    assert d1 % 16 == b1 / 16 && d1 / 16 == b0 % 4;
    assert d2 / 4 == b1 % 16 && d2 % 4 == b2 / 64;
    assert d0 * 4 + d1 / 16 == b0;
    assert (d1 % 16) * 16 + d2 / 4 == b1;
    assert (d2 % 4) * 64 + d3 == b2;
  }

  lemma DecodeEncodeGroup1(b0: byte)
    ensures DecodeGroups(EncodeGroup1(b0)) == Some([b0])
  {
    DigitOfSymbol(b0 / 4);
    DigitOfSymbol((b0 % 4) * 16);
  }

  lemma DecodeEncodeGroup2(b0: byte, b1: byte)
    ensures DecodeGroups(EncodeGroup2(b0, b1)) == Some([b0, b1])
  {
    var d0, d1, d2 := b0 / 4, (b0 % 4) * 16 + b1 / 16, (b1 % 16) * 4;
    DigitOfSymbol(d0);
    DigitOfSymbol(d1);
    DigitOfSymbol(d2);
    var g := EncodeGroup2(b0, b1);
    assert Digit(g[0]) == Some(d0) && Digit(g[1]) == Some(d1) && Digit(g[2]) == Some(d2);
    assert Digit(g[3]) == None && g[2] != Pad;
    assert d1 % 16 == b1 / 16 && d1 / 16 == b0 % 4 && d2 / 4 == b1 % 16;
    assert d0 * 4 + d1 / 16 == b0;
    assert (d1 % 16) * 16 + d2 / 4 == b1;
  }

  lemma {:induction false} DecodeGroupsEncode(b: Bytes)
    ensures DecodeGroups(Encode(b)) == Some(b)
    decreases |b|
  {
    if |b| == 1 {
      assert Encode(b) == EncodeGroup1(b[0]);
      DecodeEncodeGroup1(b[0]);
      assert b == [b[0]];
    } else if |b| == 2 {
      assert Encode(b) == EncodeGroup2(b[0], b[1]);
      DecodeEncodeGroup2(b[0], b[1]);
      assert b == [b[0], b[1]];
    } else if |b| >= 3 {
      SplitThree(b);
      var g, rest := EncodeGroup3(b[0], b[1], b[2]), Encode(b[3..]);
      assert Encode(b) == g + rest;
      DecodeGroupsEncode(b[3..]);
      DecodeEncodeGroup3(b[0], b[1], b[2]);
      DecodeGroupsStep(g, rest);
    }
  }

  lemma SplitThree(b: Bytes)
    requires |b| >= 3
    ensures b == [b[0], b[1], b[2]] + b[3..]
  {
  }

  /** Decoding a full group of four alphabet characters followed by more input. */
  lemma DecodeGroupsStep(g: string, rest: string)
    requires |g| == 4
    requires Digit(g[0]).Some? && Digit(g[1]).Some? && Digit(g[2]).Some? && Digit(g[3]).Some?
    ensures DecodeGroups(g + rest) ==
      match DecodeGroups(rest)
      case None => None
      case Some(r) => Some(DecodeGroup3(Digit(g[0]).value, Digit(g[1]).value, Digit(g[2]).value, Digit(g[3]).value) + r)
  {
    var s := g + rest;
    assert s[0] == g[0] && s[1] == g[1] && s[2] == g[2] && s[3] == g[3];
    assert s[4..] == rest;
  }

  /** Decoding after encoding gives back the original bytes. */
  lemma DecodeEncode(b: Bytes)
    ensures Decode(Encode(b)) == Some(b)
  {
    StripNewlinesUnchanged(Encode(b));
    DecodeGroupsEncode(b);
  }

  /** Input that is not a whole number of 4-character groups is corrupt. */
  lemma {:induction false} DecodeRejectsPartialGroup(s: string)
    requires |s| % 4 != 0
    ensures DecodeGroups(s) == None
    decreases |s|
  {
    if |s| > 4 {
      DecodeRejectsPartialGroup(s[4..]);
    }
  }

  /** Input holding a character that is neither in the alphabet nor padding is corrupt. */
  lemma {:induction false} DecodeRejectsForeignCharacter(s: string, k: nat)
    requires k < |s| && !InAlphabet(s[k]) && s[k] != Pad
    ensures DecodeGroups(s) == None
    decreases |s|
  {
    if |s| >= 4 && k >= 4 {
      DecodeRejectsForeignCharacter(s[4..], k - 4);
    }
  }

  /** What decodes is whole groups of alphabet characters and padding. */
  lemma DecodableIsWellFormed(s: string)
    ensures DecodeGroups(s).Some? ==> |s| % 4 == 0 && AlphabetOrPad(s)
  {
    if |s| % 4 != 0 {
      DecodeRejectsPartialGroup(s);
    }
    forall k | 0 <= k < |s| && !InAlphabet(s[k]) && s[k] != Pad
      ensures DecodeGroups(s) == None
    {
      DecodeRejectsForeignCharacter(s, k);
    }
  }
}
