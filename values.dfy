/** Go values as the cache sees them, their static types, and the errors the package
    reports.

    The wrappers in cache.go are generic over `Params` and `ResultType`; the model gives
    both a single universe of dynamic values, and the static type a caller asks for when
    decoding (`var result ResultType`) becomes a `Kind`. */
module Values {
  import opened ByteStrings

  datatype Value =
    | Str(s: Bytes)                                  // a Go string (its bytes)
    | ByteSlice(data: Bytes)                         // a []byte
    | Int(n: int)
    | Bool(flag: bool)
    | Nil                                            // nil
    | Record(typeName: string, fields: seq<Value>)   // a struct, or the address of one
    | Func                                           // a func value

  datatype Kind =
    | StringKind
    | BytesKind
    | IntKind
    | BoolKind
    | NilKind
    | RecordKind(typeName: string)
    | FuncKind

  /** The static type of a value: what a caller decodes it back into. */
  function KindOf(v: Value): Kind {
    match v
    case Str(_) => StringKind
    case ByteSlice(_) => BytesKind
    case Int(_) => IntKind
    case Bool(_) => BoolKind
    case Nil => NilKind
    case Record(t, _) => RecordKind(t)
    case Func => FuncKind
  }

  /** True when a func value occurs anywhere inside `v`; JSON cannot encode such values. */
  predicate ContainsFunc(v: Value) {
    match v
    case Func => true
    case Record(_, fields) => exists i | 0 <= i < |fields| :: ContainsFunc(fields[i])
    case _ => false
  }

  /** True when every string inside `v` is valid UTF-8.  encoding/json replaces each
      invalid byte of a string with U+FFFD, so only such values can survive its round
      trip. */
  predicate ValidText(v: Value) {
    match v
    case Str(s) => ValidUtf8(s)
    case Record(_, fields) => forall i | 0 <= i < |fields| :: ValidText(fields[i])
    case _ => true
  }

  datatype Error =
    | EntryNotFound                                   // ErrEntryNotFound
    | EntryExpired                                    // ErrEntryExpired
    | External(msg: string)                           // an error raised by a library, a backend or a resolver
    | WhileMarshalingJSON(cause: Error)               // "while marshaling %+v as json: %w"
    | WhileDecodingBase64(data: string)               // "while decoding base64 string %+v: %w"
    | UnsupportedType                                 // StringCodec.Marshal of a non-string value
    | UnsupportedTarget                               // StringCodec.Unmarshal into a non-string target
    | FailedToDecompress(cause: Error)
    | FailedToUnmarshal(cause: Error)
    | FailedToMarshal(cause: Error)
    | FailedToCompress(cause: Error)
    | FailedToMarshalParameters(key: string, cause: Error)
    | FailedToRetrieve(key: string, params: string, cause: Error, chained: bool)
    | SetCacheFailed(key: string, params: string, cause: Error)
}
