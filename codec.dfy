/** Body codecs: how a resolver's result becomes bytes and back.  JSON and msgpack are
    library code; the string codec passes strings and byte slices through. */
module Codec {
  import opened Wrappers
  import opened ByteStrings
  import opened Values
  import opened Library

  datatype BodyCodec = JSONCodec | MsgPackCodec | StringCodec

  function Name(c: BodyCodec): string {
    match c
    case JSONCodec => "json"
    case MsgPackCodec => "msgpack"
    case StringCodec => "string"
  }

  /** `codecMap`: name to codec. */
  const CodecMap: map<string, BodyCodec> := map[
    Name(StringCodec) := StringCodec,
    Name(JSONCodec) := JSONCodec,
    Name(MsgPackCodec) := MsgPackCodec]

  /** `stringCodec.Marshal`: a string gives its bytes, a byte slice itself; any other
      type is refused. */
  function StringMarshal(v: Value): (r: Result<Bytes, Error>)
    ensures r.Ok? <==> v.Str? || v.ByteSlice?
    ensures r.Err? ==> r.error == UnsupportedType
  {
    match v
    case Str(s) => Ok(s)
    case ByteSlice(b) => Ok(b)
    case _ => Err(UnsupportedType)
  }

  /** `stringCodec.Unmarshal`: the target's type decides whether the bytes become a
      string or a fresh byte slice; any other target is refused. */
  function StringUnmarshal(data: Bytes, target: Kind): (r: Result<Value, Error>)
    ensures r.Ok? <==> target == StringKind || target == BytesKind
    ensures r.Ok? ==> KindOf(r.value) == target
    ensures r.Err? ==> r.error == UnsupportedTarget
  {
    match target
    case StringKind => Ok(Str(data))
    case BytesKind => Ok(ByteSlice(data))
    case _ => Err(UnsupportedTarget)
  }

  /** `BodyCodec.Marshal`: JSON and msgpack are the libraries' encoders; the string codec
      gives a string's bytes or a byte slice itself and refuses every other value. */
  function Marshal(lib: Library, c: BodyCodec, v: Value): (r: Result<Bytes, Error>)
    ensures c == JSONCodec ==> r == lib.jsonMarshal(v)
    ensures c == MsgPackCodec ==> r == lib.msgpackMarshal(v)
    ensures c == StringCodec ==> (r.Ok? <==> v.Str? || v.ByteSlice?)
    ensures c == StringCodec && v.Str? ==> r == Ok(v.s)
    ensures c == StringCodec && v.ByteSlice? ==> r == Ok(v.data)
  {
    match c
    case JSONCodec => lib.jsonMarshal(v)
    case MsgPackCodec => lib.msgpackMarshal(v)
    case StringCodec => StringMarshal(v)
  }

  /** `BodyCodec.Unmarshal`: JSON and msgpack are the libraries' decoders; the string
      codec decodes only into a string or a byte slice, holding exactly the given bytes. */
  function Unmarshal(lib: Library, c: BodyCodec, data: Bytes, target: Kind): (r: Result<Value, Error>)
    ensures c == JSONCodec ==> r == lib.jsonUnmarshal(data, target)
    ensures c == MsgPackCodec ==> r == lib.msgpackUnmarshal(data, target)
    ensures c == StringCodec ==> (r.Ok? <==> target == StringKind || target == BytesKind)
    ensures c == StringCodec && r.Ok? ==>
              && KindOf(r.value) == target
              && (r.value.Str? ==> r.value.s == data)
              && (r.value.ByteSlice? ==> r.value.data == data)
  {
    match c
    case JSONCodec => lib.jsonUnmarshal(data, target)
    case MsgPackCodec => lib.msgpackUnmarshal(data, target)
    case StringCodec => StringUnmarshal(data, target)
  }

  /** Strings and byte slices survive the string codec's round trip. */
  lemma StringRoundTrip(v: Value)
    requires v.Str? || v.ByteSlice?
    ensures StringUnmarshal(StringMarshal(v).value, KindOf(v)) == Ok(v)
  {
  }

  /** The library law codec `c` relies on: the string codec needs none. */
  ghost predicate Lawful(lib: Library, c: BodyCodec) {
    match c
    case JSONCodec => JsonRoundTrips(lib)
    case MsgPackCodec => MsgpackRoundTrips(lib)
    case StringCodec => true
  }

  /** The values codec `c` is asked to give back: JSON keeps only valid UTF-8 text. */
  predicate Representable(c: BodyCodec, v: Value) {
    c == JSONCodec ==> ValidText(v)
  }

  /** Every codec gives back, in the value's own type, whatever it managed to encode. */
  lemma RoundTrip(lib: Library, c: BodyCodec, v: Value)
    requires Lawful(lib, c) && Representable(c, v)
    requires Marshal(lib, c, v).Ok?
    ensures Unmarshal(lib, c, Marshal(lib, c, v).value, KindOf(v)) == Ok(v)
  {
    match c
    case JSONCodec => JsonRoundTrip(lib, v);
    case MsgPackCodec => MsgpackRoundTrip(lib, v);
    case StringCodec => StringRoundTrip(v);
  }

  /** Names are distinct and `codecMap` maps each one back to its codec. */
  lemma CodecMapInverse(c: BodyCodec)
    ensures Name(c) in CodecMap && CodecMap[Name(c)] == c
    ensures forall c' :: Name(c') == Name(c) ==> c' == c
  {
  }
}
