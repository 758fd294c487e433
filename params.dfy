/** Parameter codecs: a call's parameters rendered as the string that, after the cache
    key, identifies a stored entry. */
module Params {
  import opened Wrappers
  import opened ByteStrings
  import opened Values
  import opened Library
  import Base64Url

  datatype ParamCodec = JSONParams | JSONBase64Params

  function Name(c: ParamCodec): string {
    match c
    case JSONParams => "json"
    case JSONBase64Params => "json+base64"
  }

  /** `paramMap`: name to codec. */
  const ParamMap: map<string, ParamCodec> := map[
    Name(JSONParams) := JSONParams,
    Name(JSONBase64Params) := JSONBase64Params]

  /** `Marshal`: the JSON text itself, or its base64url encoding; a JSON failure is
      wrapped.  The text exists exactly when the JSON does; the JSON codec's text converts
      back to the JSON bytes, and the base64 codec's text is 4·⌈n/3⌉ characters of the
      base64url alphabet and padding that decode to them. */
  function Marshal(lib: Library, c: ParamCodec, v: Value): (r: Result<GoString, Error>)
    ensures r.Ok? <==> lib.jsonMarshal(v).Ok?
    ensures r.Err? ==> r.error == WhileMarshalingJSON(lib.jsonMarshal(v).error)
    ensures r.Ok? && c == JSONParams ==> BytesOf(r.value) == lib.jsonMarshal(v).value
    ensures r.Ok? && c == JSONBase64Params ==>
              var raw := lib.jsonMarshal(v).value;
              && |r.value| == 4 * ((|raw| + 2) / 3)
              && Base64Url.AlphabetOrPad(r.value)
              && Base64Url.Decode(r.value) == Some(raw)
  {
    match lib.jsonMarshal(v)
    case Err(e) => Err(WhileMarshalingJSON(e))
    case Ok(raw) =>
      BytesOfStringOf(raw);
      Base64Url.DecodeEncode(raw);
      match c
      case JSONParams => Ok(StringOf(raw))
      case JSONBase64Params => Ok(Base64Url.Encode(raw))
  }

  /** `Unmarshal`: the JSON codec hands the text's bytes to encoding/json; the base64
      codec decodes first, stops with the wrapped error naming the text when it is
      corrupt, and otherwise hands the decoded bytes to encoding/json, whose errors are
      returned as they are. */
  function Unmarshal(lib: Library, c: ParamCodec, data: GoString, target: Kind): (r: Result<Value, Error>)
    ensures c == JSONParams ==> r == lib.jsonUnmarshal(BytesOf(data), target)
    ensures c == JSONBase64Params && Base64Url.Decode(data).None? ==> r == Err(WhileDecodingBase64(data))
    ensures c == JSONBase64Params && Base64Url.Decode(data).Some? ==>
              r == lib.jsonUnmarshal(Base64Url.Decode(data).value, target)
  {
    match c
    case JSONParams => lib.jsonUnmarshal(BytesOf(data), target)
    case JSONBase64Params =>
      match Base64Url.Decode(data)
      case None => Err(WhileDecodingBase64(data))
      case Some(raw) => lib.jsonUnmarshal(raw, target)
  }

  /** Unmarshal after Marshal gives back the parameters, for both codecs. */
  lemma RoundTrip(lib: Library, c: ParamCodec, v: Value)
    requires JsonRoundTrips(lib) && ValidText(v)
    requires Marshal(lib, c, v).Ok?
    ensures Unmarshal(lib, c, Marshal(lib, c, v).value, KindOf(v)) == Ok(v)
  {
    JsonRoundTrip(lib, v);
  }

  /** Parameters holding a func value cannot be rendered, by either codec. */
  lemma MarshalRejectsFunc(lib: Library, c: ParamCodec, v: Value)
    requires JsonRefusesFuncs(lib)
    requires ContainsFunc(v)
    ensures Marshal(lib, c, v).Err?
  {
  }

  /** The two names are distinct and `paramMap` maps each back to its codec. */
  lemma ParamMapInverse(c: ParamCodec)
    ensures Name(c) in ParamMap && ParamMap[Name(c)] == c
    ensures Name(JSONParams) != Name(JSONBase64Params)
  {
  }
}
